/**
 * The cover-letter conversion: a simpler line classifier than the CV's, where the
 * heading is dropped, greetings and closings get a spacer before them and contact
 * lines are copied verbatim.
 */
module CoverLetter {
  import opened Text
  import opened Docx

  datatype CoverLineKind = CoverBlank | CoverHeader | Addressing | Greeting | Closing | CoverContact | CoverRegular

  const Closings: seq<string> := ["Best regards,", "Sincerely,", "Kind regards,"]

  /** The branch a stripped cover-letter line takes. */
  function ClassifyCoverLine(line: string): (k: CoverLineKind)
    ensures k == CoverBlank <==> line == ""
    ensures k == CoverHeader <==> line != "" && StartsWith(line, "# ")
    ensures k == Addressing <==> StartsWith(line, "**To:**") || StartsWith(line, "**Subject:**")
    ensures k == Greeting <==> StartsWith(line, "Dear ")
    ensures k == Closing <==> line in Closings
    ensures k == CoverContact <==>
      (Contains(line, "+27") || '@' in line) && !StartsWith(line, "# ") &&
      !StartsWith(line, "**To:**") && !StartsWith(line, "**Subject:**") && !StartsWith(line, "Dear ")
    ensures k == CoverRegular <==>
      line != "" && !StartsWith(line, "# ") && !StartsWith(line, "**To:**") && !StartsWith(line, "**Subject:**") &&
      !StartsWith(line, "Dear ") && line !in Closings && !Contains(line, "+27") && '@' !in line
  {
    ClosingsPlain(line);
    if line == "" then CoverBlank
    else if StartsWith(line, "# ") then CoverHeader
    else if StartsWith(line, "**To:**") || StartsWith(line, "**Subject:**") then Addressing
    else if StartsWith(line, "Dear ") then Greeting
    else if line in Closings then Closing
    else if Contains(line, "+27") || '@' in line then CoverContact
    else CoverRegular
  }

  /** The paragraphs one stripped cover-letter line adds. */
  function CoverLineParagraphs(line: string): (r: seq<Paragraph>)
    ensures |r| <= 2
    ensures r == [] <==> line == "" || StartsWith(line, "# ")
    ensures ClassifyCoverLine(line) == CoverContact ==> r == [PlainParagraph(line)]
    ensures ClassifyCoverLine(line) == Greeting || ClassifyCoverLine(line) == Closing ==> r == [Spacer, PlainParagraph(line)]
    ensures ClassifyCoverLine(line) == Addressing || ClassifyCoverLine(line) == CoverRegular ==>
      r == [Formatted(Parse(line))]
  {
    match ClassifyCoverLine(line)
    case CoverBlank => []
    case CoverHeader => []
    case Addressing => [Formatted(Parse(line))]
    case Greeting => [Spacer, PlainParagraph(line)]
    case Closing => [Spacer, PlainParagraph(line)]
    case CoverContact => [PlainParagraph(line)]
    case CoverRegular => [Formatted(Parse(line))]
  }

  /** Each of the three closings takes the closing branch: a spacer, then the line itself. */
  lemma ClosingParagraphs(line: string)
    requires line in Closings
    ensures ClassifyCoverLine(line) == Closing
    ensures CoverLineParagraphs(line) == [Spacer, PlainParagraph(line)]
  {
    assert line != "" && line[0] in "BSK";
    DifferentHead(line, "# ");
    DifferentHead(line, "**To:**");
    DifferentHead(line, "**Subject:**");
    DifferentHead(line, "Dear ");
  }

  /**
   * The closings begin with neither marker nor "Dear ", and hold no phone prefix or '@';
   * the four prefixes exclude one another by their first characters.
   */
  lemma ClosingsPlain(line: string)
    ensures line in Closings ==>
      !StartsWith(line, "# ") && !StartsWith(line, "**To:**") && !StartsWith(line, "**Subject:**") &&
      !StartsWith(line, "Dear ") && !Contains(line, "+27") && '@' !in line
    ensures StartsWith(line, "**To:**") || StartsWith(line, "**Subject:**") ==>
      line[0] == '*' && !StartsWith(line, "# ") && !StartsWith(line, "Dear ")
    ensures StartsWith(line, "Dear ") ==> line[0] == 'D' && !StartsWith(line, "# ")
  {
    if line in Closings {
      assert line != "" && line[0] in "BSK";
      DifferentHead(line, "# ");
      DifferentHead(line, "**To:**");
      DifferentHead(line, "**Subject:**");
      DifferentHead(line, "Dear ");
      NoPhonePrefix(line);
    }
    if StartsWith(line, "**To:**") || StartsWith(line, "**Subject:**") {
      assert line[0] == '*';
      DifferentHead(line, "# ");
      DifferentHead(line, "Dear ");
    }
    if StartsWith(line, "Dear ") {
      assert line[0] == 'D';
      DifferentHead(line, "# ");
    }
  }

  /** None of the three closings holds "+27" or '@'. */
  lemma NoPhonePrefix(line: string)
    requires line in Closings
    ensures !Contains(line, "+27") && '@' !in line
  {
    if line == "Best regards," {
      assert '+' !in line && '@' !in line;
    } else if line == "Sincerely," {
      assert '+' !in line && '@' !in line;
    } else {
      assert '+' !in line && '@' !in line;
    }
    NotContainsHead(line, "+27");
  }

  /** A string does not start with a prefix whose first character differs from its own. */
  lemma DifferentHead(s: string, p: string)
    requires s != [] && p != [] && s[0] != p[0]
    ensures !StartsWith(s, p)
  {
  }

  function CoverLetterDocument(lines: seq<string>): (r: seq<Paragraph>)
    ensures |r| <= 2 * |lines|
  {
    if lines == [] then []
    else CoverLetterDocument(lines[..|lines| - 1]) + CoverLineParagraphs(Strip(lines[|lines| - 1]))
  }

  /** Taking one more line appends that line's paragraphs. */
  lemma CoverLetterDocumentSnoc(lines: seq<string>, i: nat)
    requires i < |lines|
    ensures CoverLetterDocument(lines[..i + 1]) == CoverLetterDocument(lines[..i]) + CoverLineParagraphs(Strip(lines[i]))
  {
    var prefix := lines[..i + 1];
    assert prefix[..|prefix| - 1] == lines[..i] && prefix[|prefix| - 1] == lines[i];
  }

  lemma CoverLetterDocumentAll(lines: seq<string>)
    ensures CoverLetterDocument(lines[..|lines|]) == CoverLetterDocument(lines)
  {
    assert lines[..|lines|] == lines;
  }

  /** The body of the cover-letter loop for one line. */
  method AddCoverLine(raw: string) returns (paragraphs: seq<Paragraph>)
    ensures paragraphs == CoverLineParagraphs(Strip(raw))
  {
    var line := Strip(raw);
    var kind := ClassifyCoverLine(line);
    if kind == Addressing || kind == CoverRegular {
      var segments := ParseInlineFormatting(line);
      paragraphs := [Formatted(segments)];
    } else {
      paragraphs := CoverLineParagraphs(line);
    }
  }

  /** generate_cover_letter_docx: the paragraphs of each line, in order. */
  method GenerateCoverLetterDocx(markdownText: string) returns (document: seq<Paragraph>)
    ensures document == CoverLetterDocument(Split(markdownText, '\n'))
  {
    var lines := Split(markdownText, '\n');
    document := [];
    for i := 0 to |lines|
      invariant document == CoverLetterDocument(lines[..i])
    {
      var added := AddCoverLine(lines[i]);
      CoverLetterDocumentSnoc(lines, i);
      document := document + added;
    }
    CoverLetterDocumentAll(lines);
  }
}
