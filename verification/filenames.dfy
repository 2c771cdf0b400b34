/**
 * The names of the generated Word files: a fixed prefix, the company, the job title and
 * the extension, with spaces and slashes turned into underscores.
 */
module Filenames {
  import opened Text

  /** `.replace(' ', '_').replace('/', '_')` */
  function Sanitize(s: string): (r: string)
    ensures |r| == |s|
    ensures ' ' !in r && '/' !in r
    ensures forall i :: 0 <= i < |s| ==> r[i] == (if s[i] == ' ' || s[i] == '/' then '_' else s[i])
  {
    var spaces := ReplaceChar(s, ' ', "_");
    ReplaceCharAt(s, ' ', '_');
    ReplaceCharAt(spaces, '/', '_');
    ReplaceChar(spaces, '/', "_")
  }

  lemma {:induction false} ReplaceCharConcat(a: string, b: string, c: char, rep: string)
    ensures ReplaceChar(a + b, c, rep) == ReplaceChar(a, c, rep) + ReplaceChar(b, c, rep)
  {
    if a != [] {
      assert (a + b)[0] == a[0] && (a + b)[1..] == a[1..] + b;
      ReplaceCharConcat(a[1..], b, c, rep);
    } else {
      assert a + b == b;
    }
  }

  lemma SanitizeConcat(a: string, b: string)
    ensures Sanitize(a + b) == Sanitize(a) + Sanitize(b)
  {
    ReplaceCharConcat(a, b, ' ', "_");
    ReplaceCharConcat(ReplaceChar(a, ' ', "_"), ReplaceChar(b, ' ', "_"), '/', "_");
  }

  /** The CV file name: `CV_{company}_{title}.docx`, sanitised as a whole. */
  function CvFilename(companyName: string, jobTitle: string): string {
    Sanitize("CV_" + companyName + "_" + jobTitle + ".docx")
  }

  function CoverLetterFilename(companyName: string, jobTitle: string): string {
    Sanitize("CoverLetter_" + companyName + "_" + jobTitle + ".docx")
  }

  lemma {:induction false} ReplaceAbsent(s: string, c: char, rep: string)
    requires c !in s
    ensures ReplaceChar(s, c, rep) == s
  {
    if s != [] {
      assert s[0] != c && c !in s[1..];
      ReplaceAbsent(s[1..], c, rep);
    }
  }

  /** A name without spaces or slashes is left alone. */
  lemma SanitizeClean(s: string)
    requires forall i :: 0 <= i < |s| ==> s[i] != ' ' && s[i] != '/'
    ensures Sanitize(s) == s
  {
    ReplaceAbsent(s, ' ', "_");
    ReplaceAbsent(s, '/', "_");
  }

  /** The fixed parts of both file names are left alone. */
  lemma CleanSep() ensures Sanitize("_") == "_" { SanitizeClean("_"); }
  lemma CleanCv() ensures Sanitize("CV_") == "CV_" { SanitizeClean("CV_"); }
  lemma CleanCover() ensures Sanitize("CoverLetter_") == "CoverLetter_" { SanitizeClean("CoverLetter_"); }
  lemma CleanExt() ensures Sanitize(".docx") == ".docx" { SanitizeClean(".docx"); }

  /** Sanitising a five-part concatenation sanitises each part. */
  lemma SanitizeParts(a: string, b: string, c: string, d: string, e: string)
    ensures Sanitize(a + b + c + d + e) == Sanitize(a) + Sanitize(b) + Sanitize(c) + Sanitize(d) + Sanitize(e)
  {
    SanitizeConcat(a + b + c + d, e);
    SanitizeConcat(a + b + c, d);
    SanitizeConcat(a + b, c);
    SanitizeConcat(a, b);
  }

  /** Only the company and title change: the fixed parts survive, and each part is sanitised on its own. */
  lemma CvFilenameShape(companyName: string, jobTitle: string)
    ensures CvFilename(companyName, jobTitle) == "CV_" + Sanitize(companyName) + "_" + Sanitize(jobTitle) + ".docx"
  {
    SanitizeParts("CV_", companyName, "_", jobTitle, ".docx");
    CleanCv();
    CleanSep();
    CleanExt();
  }

  lemma CoverLetterFilenameShape(companyName: string, jobTitle: string)
    ensures CoverLetterFilename(companyName, jobTitle)
      == "CoverLetter_" + Sanitize(companyName) + "_" + Sanitize(jobTitle) + ".docx"
  {
    SanitizeParts("CoverLetter_", companyName, "_", jobTitle, ".docx");
    CleanCover();
    CleanSep();
    CleanExt();
  }
}
