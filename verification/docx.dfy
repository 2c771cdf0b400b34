/**
 * The Markdown-to-Word conversion: the inline `**bold**` segmenter, the CV and
 * cover-letter line classifiers with the paragraphs each line produces, and the
 * generated file names. A document is the sequence of paragraphs it receives;
 * fonts, colours and alignment are not modelled.
 */
module Docx {
  import opened Wrappers
  import opened Text

  // ---------------------------------------------------------------------------
  // Inline formatting

  /** A run of text, bold or not. */
  datatype Segment = Segment(text: string, bold: bool)

  /** A `**` marker starts at index j. */
  predicate IsPair(text: string, j: int) {
    0 <= j && j + 1 < |text| && text[j] == '*' && text[j + 1] == '*'
  }

  /** `text.find('**', start)`: the first marker at or after start, or None for -1. */
  function FindBold(text: string, start: nat): (r: Option<nat>)
    ensures r.Some? ==> start <= r.value && IsPair(text, r.value)
    decreases |text| - start
  {
    if start + 1 >= |text| then None
    else if IsPair(text, start) then Some(start)
    else FindBold(text, start + 1)
  }

  /** str.find misses no marker: none lies between start and the one it reports, none at all when it reports -1. */
  lemma {:induction false} FindBoldFirstMarker(text: string, start: nat)
    ensures var r := FindBold(text, start);
      (r.Some? ==> forall j :: start <= j < r.value ==> !IsPair(text, j)) &&
      (r.None? ==> forall j :: start <= j ==> !IsPair(text, j))
    decreases |text| - start
  {
    if start + 1 < |text| && !IsPair(text, start) {
      FindBoldFirstMarker(text, start + 1);
    }
  }

  /** A pending plain run, flushed as a segment only when non-empty. */
  function Flush(current: string): (r: seq<Segment>)
    ensures |r| <= 1 && (r == [] <==> current == "")
    ensures r != [] ==> r[0] == Segment(current, false)
  {
    if current != "" then [Segment(current, false)] else []
  }

  /**
   * The segments parse_inline_formatting produces from index i on, with `current` the
   * plain text gathered so far: at a `**` with a closing `**` after it, the text between
   * becomes a bold segment; an unclosed `**` is kept as plain text.
   */
  function ParseFrom(text: string, i: nat, current: string): seq<Segment>
    requires i <= |text|
    decreases |text| - i
  {
    if i == |text| then Flush(current)
    else if IsPair(text, i) then
      match FindBold(text, i + 2)
      case Some(end) => Flush(current) + [Segment(text[i + 2..end], true)] + ParseFrom(text, end + 2, "")
      case None => Flush(current) + ParseFrom(text, i + 1, [text[i]])
    else ParseFrom(text, i + 1, current + [text[i]])
  }

  function Parse(text: string): seq<Segment> {
    ParseFrom(text, 0, "")
  }

  /** parse_inline_formatting: a while loop over i with a `current` accumulator. */
  method ParseInlineFormatting(text: string) returns (segments: seq<Segment>)
    ensures segments == Parse(text)
  {
    segments := [];
    var current := "";
    var i := 0;
    while i < |text|
      invariant 0 <= i <= |text|
      invariant segments + ParseFrom(text, i, current) == Parse(text)
      decreases |text| - i
    {
      if i < |text| - 1 && text[i] == '*' && text[i + 1] == '*' {
        ghost var before, pending := segments, current;
        if current != "" {
          segments := segments + [Segment(current, false)];
          current := "";
        }
        assert segments == before + Flush(pending);
        var end := FindBold(text, i + 2);
        if end.Some? {
          var bold := Segment(text[i + 2..end.value], true);
          assert ParseFrom(text, i, pending) == Flush(pending) + [bold] + ParseFrom(text, end.value + 2, "");
          assert before + (Flush(pending) + [bold] + ParseFrom(text, end.value + 2, ""))
              == segments + [bold] + ParseFrom(text, end.value + 2, "");
          segments := segments + [bold];
          i := end.value + 2;
          continue;
        }
        assert ParseFrom(text, i, pending) == Flush(pending) + ParseFrom(text, i + 1, [text[i]]);
        assert current == "" && current + [text[i]] == [text[i]];
        assert before + (Flush(pending) + ParseFrom(text, i + 1, [text[i]]))
            == segments + ParseFrom(text, i + 1, current + [text[i]]);
      } else {
        assert ParseFrom(text, i, current) == ParseFrom(text, i + 1, current + [text[i]]);
      }
      current := current + [text[i]];
      i := i + 1;
    }
    if current != "" {
      segments := segments + [Segment(current, false)];
    }
  }

  /** The text of a paragraph built from segments: their texts in order. */
  function Render(segments: seq<Segment>): string {
    if segments == [] then "" else segments[0].text + Render(segments[1..])
  }

  /** How many segments are bold. */
  function BoldCount(segments: seq<Segment>): nat {
    if segments == [] then 0 else (if segments[0].bold then 1 else 0) + BoldCount(segments[1..])
  }

  lemma {:induction false} RenderConcat(a: seq<Segment>, b: seq<Segment>)
    ensures Render(a + b) == Render(a) + Render(b)
  {
    if a != [] {
      assert (a + b)[0] == a[0] && (a + b)[1..] == a[1..] + b;
      RenderConcat(a[1..], b);
      calc {
        Render(a + b);
        a[0].text + Render(a[1..] + b);
        a[0].text + (Render(a[1..]) + Render(b));
        (a[0].text + Render(a[1..])) + Render(b);
      }
    } else {
      assert a + b == b;
    }
  }

  lemma {:induction false} BoldCountConcat(a: seq<Segment>, b: seq<Segment>)
    ensures BoldCount(a + b) == BoldCount(a) + BoldCount(b)
  {
    if a != [] {
      assert (a + b)[0] == a[0] && (a + b)[1..] == a[1..] + b;
      BoldCountConcat(a[1..], b);
    } else {
      assert a + b == b;
    }
  }

  /**
   * Segmenting removes exactly the two markers of each bold segment: the rendered text is
   * shorter than the input by four characters per bold segment, and by nothing else.
   */
  lemma {:induction false} ParseLength(text: string, i: nat, current: string)
    requires i <= |text|
    ensures var r := ParseFrom(text, i, current);
      |Render(r)| + 4 * BoldCount(r) == |current| + |text| - i
    decreases |text| - i
  {
    var flushed := Flush(current);
    FlushRendersPending(current);
    if i == |text| {
    } else if IsPair(text, i) {
      match FindBold(text, i + 2)
      case Some(end) =>
        var bold := [Segment(text[i + 2..end], true)];
        var rest := ParseFrom(text, end + 2, "");
        BoldRendersInner(text[i + 2..end]);
        ParseLength(text, end + 2, "");
        RenderConcat(flushed, bold);
        RenderConcat(flushed + bold, rest);
        BoldCountConcat(flushed, bold);
        BoldCountConcat(flushed + bold, rest);
        assert ParseFrom(text, i, current) == flushed + bold + rest;
      case None =>
        var rest := ParseFrom(text, i + 1, [text[i]]);
        ParseLength(text, i + 1, [text[i]]);
        RenderConcat(flushed, rest);
        BoldCountConcat(flushed, rest);
        assert ParseFrom(text, i, current) == flushed + rest;
    } else {
      ParseLength(text, i + 1, current + [text[i]]);
    }
  }

  /** Writes segments back as markdown: a bold segment inside its two `**` markers, a plain one as it is. */
  function Unparse(segments: seq<Segment>): string {
    if segments == [] then ""
    else (if segments[0].bold then "**" + segments[0].text + "**" else segments[0].text) + Unparse(segments[1..])
  }

  lemma {:induction false} UnparseConcat(a: seq<Segment>, b: seq<Segment>)
    ensures Unparse(a + b) == Unparse(a) + Unparse(b)
    decreases |a|
  {
    if a == [] {
      assert a + b == b;
    } else {
      assert (a + b)[0] == a[0] && (a + b)[1..] == a[1..] + b;
      UnparseConcat(a[1..], b);
    }
  }

  /** A flushed run writes back as the run itself. */
  lemma UnparseFlush(current: string)
    ensures Unparse(Flush(current)) == current
  {
    if current != "" { assert Flush(current)[1..] == []; }
  }

  /** A closed pair: the pending run, then the bold text inside its markers, then the rest. */
  lemma UnparseBoldStep(current: string, inner: string, rest: seq<Segment>)
    ensures Unparse(Flush(current) + [Segment(inner, true)] + rest) == current + ("**" + inner + "**" + Unparse(rest))
  {
    var bold := [Segment(inner, true)];
    assert Unparse(bold) == "**" + inner + "**" by { assert bold[1..] == []; }
    UnparseFlush(current);
    UnparseConcat(Flush(current), bold);
    UnparseConcat(Flush(current) + bold, rest);
    assert current + "**" + inner + "**" + Unparse(rest) == current + ("**" + inner + "**" + Unparse(rest));
  }

  /** The text from a closed pair on: opening marker, inner text, closing marker, rest. */
  lemma PairSplit(text: string, i: nat, end: nat)
    requires IsPair(text, i) && IsPair(text, end) && i + 2 <= end
    ensures text[i..] == "**" + text[i + 2..end] + "**" + text[end + 2..]
  {
    assert text[i..] == text[i..i + 2] + text[i + 2..end] + text[end..end + 2] + text[end + 2..];
    assert text[i..i + 2] == "**" && text[end..end + 2] == "**";
  }

  /**
   * Segmenting loses nothing: writing the segments from index i back as markdown gives
   * the pending run followed by the rest of the text.
   */
  lemma {:induction false} ParseFromRoundTrip(text: string, i: nat, current: string)
    requires i <= |text|
    ensures Unparse(ParseFrom(text, i, current)) == current + text[i..]
    decreases |text| - i
  {
    if i == |text| {
      UnparseFlush(current);
      assert text[i..] == [];
    } else if IsPair(text, i) {
      match FindBold(text, i + 2)
      case Some(end) =>
        var inner := text[i + 2..end];
        var rest := ParseFrom(text, end + 2, "");
        assert ParseFrom(text, i, current) == Flush(current) + [Segment(inner, true)] + rest;
        ParseFromRoundTrip(text, end + 2, "");
        UnparseBoldStep(current, inner, rest);
        PairSplit(text, i, end);
        var tail := Unparse(rest);
        assert tail == text[end + 2..];
        assert Unparse(ParseFrom(text, i, current)) == current + ("**" + inner + "**" + tail);
      case None =>
        var rest := ParseFrom(text, i + 1, [text[i]]);
        assert ParseFrom(text, i, current) == Flush(current) + rest;
        ParseFromRoundTrip(text, i + 1, [text[i]]);
        UnparseFlush(current);
        UnparseConcat(Flush(current), rest);
        assert text[i..] == [text[i]] + text[i + 1..];
        assert Unparse(ParseFrom(text, i, current)) == current + ([text[i]] + text[i + 1..]);
    } else {
      ParseFromRoundTrip(text, i + 1, current + [text[i]]);
      assert text[i..] == [text[i]] + text[i + 1..];
      assert Unparse(ParseFrom(text, i, current)) == current + ([text[i]] + text[i + 1..]);
    }
  }

  /** Unparse undoes Parse on every input, unclosed markers included. */
  lemma ParseRoundTrip(text: string)
    ensures Unparse(Parse(text)) == text
  {
    ParseFromRoundTrip(text, 0, "");
    assert text[0..] == text;
  }

  /** A flushed run renders as the run and holds no bold segment. */
  lemma FlushRendersPending(current: string)
    ensures Render(Flush(current)) == current && BoldCount(Flush(current)) == 0
  {
    if current != "" { assert Flush(current)[1..] == []; }
  }

  /** A bold segment renders as its text and counts once. */
  lemma BoldRendersInner(inner: string)
    ensures Render([Segment(inner, true)]) == inner && BoldCount([Segment(inner, true)]) == 1
  {
    assert [Segment(inner, true)][1..] == [];
  }

  /** No segment is an empty plain run, and no bold segment contains a marker. */
  lemma {:induction false} ParseSegmentsWellFormed(text: string, i: nat, current: string)
    requires i <= |text|
    ensures forall s :: s in ParseFrom(text, i, current) ==> s.bold || s.text != ""
    ensures forall s :: s in ParseFrom(text, i, current) && s.bold ==> forall k :: !IsPair(s.text, k)
    decreases |text| - i
  {
    if i < |text| {
      if IsPair(text, i) {
        match FindBold(text, i + 2)
        case Some(end) =>
          ParseSegmentsWellFormed(text, end + 2, "");
          FindBoldFirstMarker(text, i + 2);
          var inner := text[i + 2..end];
          forall k ensures !IsPair(inner, k) {
            if IsPair(inner, k) {
              assert IsPair(text, i + 2 + k);
            }
          }
        case None =>
          ParseSegmentsWellFormed(text, i + 1, [text[i]]);
      } else {
        ParseSegmentsWellFormed(text, i + 1, current + [text[i]]);
      }
    }
  }

  /** Text without a `**` marker is one plain segment, or nothing when empty. */
  lemma {:induction false} ParseWithoutMarkers(text: string, i: nat, current: string)
    requires i <= |text|
    requires forall j :: i <= j ==> !IsPair(text, j)
    ensures ParseFrom(text, i, current) == Flush(current + text[i..])
    decreases |text| - i
  {
    ParseSkipsPlain(text, i, |text|, current);
    assert text[i..|text|] == text[i..];
  }

  /** The segments of a marker-free text. */
  lemma PlainText(text: string)
    requires forall j :: !IsPair(text, j)
    ensures Parse(text) == if text == "" then [] else [Segment(text, false)]
  {
    ParseWithoutMarkers(text, 0, "");
    assert "" + text[0..] == text;
  }

  /** Scanning marker-free text only gathers it into the pending plain run. */
  lemma {:induction false} ParseSkipsPlain(text: string, i: nat, n: nat, current: string)
    requires i <= n <= |text|
    requires forall j :: i <= j < n ==> !IsPair(text, j)
    ensures ParseFrom(text, i, current) == ParseFrom(text, n, current + text[i..n])
    decreases n - i
  {
    if i < n {
      ParseSkipsPlain(text, i + 1, n, current + [text[i]]);
      assert current + [text[i]] + text[i + 1..n] == current + text[i..n];
    } else {
      assert current + text[i..n] == current;
    }
  }

  /** str.find reports the first marker at or after start. */
  lemma {:induction false} FindBoldFirst(text: string, start: nat, e: nat)
    requires start <= e && IsPair(text, e)
    requires forall j :: start <= j < e ==> !IsPair(text, j)
    ensures FindBold(text, start) == Some(e)
    decreases e - start
  {
    if start < e {
      FindBoldFirst(text, start + 1, e);
    }
  }

  /** At a marker with a closing marker at e, the pending run is flushed and the span between becomes bold. */
  lemma ParseAtClosedPair(text: string, i: nat, e: nat, current: string)
    requires i < |text| && IsPair(text, i) && FindBold(text, i + 2) == Some(e)
    ensures ParseFrom(text, i, current) == Flush(current) + [Segment(text[i + 2..e], true)] + ParseFrom(text, e + 2, "")
  {
  }

  /** A marker-free span whose last character is not `*` holds no marker start inside text. */
  lemma NoPairWithin(text: string, a: nat, b: nat, span: string)
    requires a <= b <= |text| && text[a..b] == span
    requires forall j :: !IsPair(span, j)
    requires |span| == 0 || span[|span| - 1] != '*'
    ensures forall j :: a <= j < b ==> !IsPair(text, j)
  {
    forall j | a <= j < b ensures !IsPair(text, j) {
      assert text[j] == span[j - a];
      if j + 1 < b { assert text[j + 1] == span[j + 1 - a]; assert !IsPair(span, j - a); }
    }
  }

  /**
   * A bold segment is exactly the text between an opening `**` and the next `**`: plain
   * text, a marked span and plain text parse as the first run, the span in bold, then
   * the last run.
   */
  lemma BoldPair(before: string, inner: string, after: string)
    requires forall j :: !IsPair(before, j)
    requires |before| == 0 || before[|before| - 1] != '*'
    requires forall j :: !IsPair(inner, j)
    requires |inner| == 0 || inner[|inner| - 1] != '*'
    requires forall j :: !IsPair(after, j)
    ensures Parse(before + "**" + inner + "**" + after)
      == Flush(before) + [Segment(inner, true)] + Flush(after)
  {
    BoldPairSlices(before, inner, after);
    BoldPairAt(before + "**" + inner + "**" + after, |before|, |before| + 2 + |inner|, before, inner, after);
  }

  /** Where the parts of `before**inner**after` sit. */
  lemma BoldPairSlices(before: string, inner: string, after: string)
    ensures var text := before + "**" + inner + "**" + after;
      var n := |before|;
      var e := n + 2 + |inner|;
      e + 2 <= |text| && IsPair(text, n) && IsPair(text, e) &&
      text[..n] == before && text[n + 2..e] == inner && text[e + 2..] == after
  {
    var text := before + "**" + inner + "**" + after;
    assert text == before + ("**" + (inner + ("**" + after)));
  }

  lemma BoldPairAt(text: string, n: nat, e: nat, before: string, inner: string, after: string)
    requires n + 2 <= e && e + 2 <= |text| && IsPair(text, n) && IsPair(text, e)
    requires text[..n] == before && text[n + 2..e] == inner && text[e + 2..] == after
    requires forall j :: !IsPair(before, j)
    requires |before| == 0 || before[|before| - 1] != '*'
    requires forall j :: !IsPair(inner, j)
    requires |inner| == 0 || inner[|inner| - 1] != '*'
    requires forall j :: !IsPair(after, j)
    ensures Parse(text) == Flush(before) + [Segment(inner, true)] + Flush(after)
  {
    PlainHead(text, n, before);
    PlainTail(text, e + 2, after);
    NoPairWithin(text, n + 2, e, inner);
    FindBoldFirst(text, n + 2, e);
    ParseAtClosedPair(text, n, e, before);
  }

  /** A marker-free head is gathered whole into the pending run. */
  lemma PlainHead(text: string, n: nat, before: string)
    requires n <= |text| && text[..n] == before
    requires forall j :: !IsPair(before, j)
    requires |before| == 0 || before[|before| - 1] != '*'
    ensures Parse(text) == ParseFrom(text, n, before)
  {
    NoPairWithin(text, 0, n, before);
    ParseSkipsPlain(text, 0, n, "");
    assert "" + text[0..n] == before;
  }

  /** A marker-free tail becomes one plain segment, or nothing. */
  lemma PlainTail(text: string, a: nat, after: string)
    requires a <= |text| && text[a..] == after
    requires forall j :: !IsPair(after, j)
    ensures ParseFrom(text, a, "") == Flush(after)
  {
    NoPairAfter(text, a, after);
    ParseWithoutMarkers(text, a, "");
    assert "" + text[a..] == after;
  }

  lemma NoPairAfter(text: string, a: nat, span: string)
    requires a <= |text| && text[a..] == span
    requires forall j :: !IsPair(span, j)
    ensures forall j :: a <= j ==> !IsPair(text, j)
  {
    forall j | a <= j ensures !IsPair(text, j) {
      if j + 1 < |text| {
        assert text[j] == span[j - a] && text[j + 1] == span[j + 1 - a];
        assert !IsPair(span, j - a);
      }
    }
  }

  // ---------------------------------------------------------------------------
  // CV lines

  /** What a document receives from one line; styling is not modelled. */
  datatype Paragraph =
    | NameHeading(text: string)           // the centred name (H1)
    | Tagline(text: string)               // the centred bold job title
    | ContactLine(text: string)           // the centred contact details
    | Spacer                              // an empty paragraph
    | SectionHeading(text: string)        // a level-2 heading
    | BulletItem(segments: seq<Segment>)  // a 'List Bullet' paragraph
    | ProjectHeading(segments: seq<Segment>)
    | Formatted(segments: seq<Segment>)   // a paragraph of segments
    | PlainParagraph(text: string)        // add_paragraph(text)

  /** The branches of the CV line loop, in the order they are tried. */
  datatype LineKind = Blank | Name | JobTitle | Contact | Section | Rule | BulletPoint | ProjectHeader | TableRow | Regular

  /** The contact-line emoji: round pushpin, telephone receiver, e-mail, link, globe, octopus. */
  const ContactEmoji: set<char> := {'\U{1F4CD}', '\U{1F4DE}', '\U{1F4E7}', '\U{1F517}', '\U{1F310}', '\U{1F419}'}

  /** The small blue diamond dropped from section headings. */
  const SectionMark: char := '\U{1F539}'

  /** The en dash of project headers. */
  const EnDash: char := '–'

  predicate HasContactEmoji(line: string) {
    exists c :: c in line && c in ContactEmoji
  }

  /**
   * The branch a stripped CV line takes: the first whose test holds. A '|' or contact
   * emoji claims every line that is neither a name nor a job title, so the section,
   * rule, bullet and project-header branches see only lines without them, and the
   * table-row branch is never reached.
   */
  function ClassifyCvLine(line: string): (k: LineKind)
    ensures k == Blank <==> line == ""
    ensures k == Name <==> StartsWith(line, "# ")
    ensures k == JobTitle <==> StartsWith(line, "**") && EndsWith(line, "**")
    ensures k == Contact <==>
      ('|' in line || HasContactEmoji(line)) && !StartsWith(line, "# ") && !(StartsWith(line, "**") && EndsWith(line, "**"))
    ensures k == Section <==> StartsWith(line, "## ") && '|' !in line && !HasContactEmoji(line)
    ensures k == Rule <==> line == "---"
    ensures k == BulletPoint <==> StartsWith(line, "* ") && '|' !in line && !HasContactEmoji(line)
    ensures k == ProjectHeader <==>
      StartsWith(line, "**") && !EndsWith(line, "**") && EnDash in line && '|' !in line && !HasContactEmoji(line)
    ensures k != TableRow
    ensures k == Regular <==>
      line != "" && '|' !in line && !HasContactEmoji(line) && !StartsWith(line, "# ") && !StartsWith(line, "## ") &&
      line != "---" && !StartsWith(line, "* ") && !(StartsWith(line, "**") && (EndsWith(line, "**") || EnDash in line))
  {
    CvTestsExclusive(line);
    if line == "" then Blank
    else if StartsWith(line, "# ") then Name
    else if StartsWith(line, "**") && EndsWith(line, "**") then JobTitle
    else if HasContactEmoji(line) || '|' in line then Contact
    else if StartsWith(line, "## ") then Section
    else if line == "---" then Rule
    else if StartsWith(line, "* ") then BulletPoint
    else if StartsWith(line, "**") && (EnDash in line || '|' in line) then ProjectHeader
    else if StartsWith(line, "|") && !Contains(line, "---") then TableRow
    else Regular
  }

  /** The prefixes "# ", "## ", "* ", "**" and the rule "---" exclude one another. */
  lemma CvTestsExclusive(line: string)
    ensures StartsWith(line, "|") ==> '|' in line
    ensures StartsWith(line, "# ") || StartsWith(line, "## ") || StartsWith(line, "* ") || StartsWith(line, "**") ==>
      line != ""
    ensures StartsWith(line, "**") ==> !StartsWith(line, "# ") && !StartsWith(line, "## ") && !StartsWith(line, "* ")
    ensures StartsWith(line, "## ") ==> !StartsWith(line, "# ") && !StartsWith(line, "* ")
    ensures StartsWith(line, "* ") ==> !StartsWith(line, "# ")
    ensures line == "---" ==>
      '|' !in line && !HasContactEmoji(line) && !StartsWith(line, "# ") && !StartsWith(line, "## ") &&
      !StartsWith(line, "* ") && !StartsWith(line, "**")
  {
    if StartsWith(line, "|") {
      assert line[0] == '|';
    }
    if StartsWith(line, "## ") {
      assert line[1] == '#';
    }
    if line == "---" {
      assert forall c :: c in line ==> c == '-';
      assert !HasContactEmoji(line);
      assert line[0] == '-' && line[1] == '-';
    }
  }

  /** The '|' alternative of the project-header test is dead: such lines are contact lines. */
  lemma ProjectHeaderHasDash(line: string)
    requires ClassifyCvLine(line) == ProjectHeader
    ensures '|' !in line && EnDash in line && StartsWith(line, "**")
  {
  }

  /** `s[2:-2]`: empty when the two markers overlap. */
  function Unwrap(s: string): (r: string)
    ensures |s| >= 4 ==> r == s[2..|s| - 2]
    ensures |r| + 4 <= |s| || r == ""
  {
    if |s| >= 4 then s[2..|s| - 2] else ""
  }

  /** The contact branch: drop the emoji, turn each '|' into a bullet separator, strip. */
  function CleanContact(line: string): (r: string)
    ensures '|' !in r
    ensures forall c :: c in r ==> c !in ContactEmoji
  {
    var noEmoji := RemoveChars(line, ContactEmoji);
    SeparatorClean();
    var separated := ReplaceChar(noEmoji, '|', ContactSeparator);
    Strip(separated)
  }

  /** What each '|' of a contact line becomes. */
  const ContactSeparator: string := " • "

  lemma SeparatorClean()
    ensures '|' !in ContactSeparator
    ensures forall c :: c in ContactSeparator ==> c !in ContactEmoji
  {
    assert forall c :: c in ContactSeparator ==> c == ' ' || c == '•';
  }

  /** The section branch: drop the leading '#', strip, drop the diamond, strip again. */
  function CleanSection(line: string): (r: string)
    requires |line| >= 2
    ensures SectionMark !in r
  {
    Strip(ReplaceChar(Strip(line[2..]), SectionMark, ""))
  }

  /**
   * The section branch raises IndexError: a heading that cleans to "" is added without
   * a run, and `p.runs[0]` then has nothing to index.
   */
  predicate CvLineRaises(line: string) {
    ClassifyCvLine(line) == Section && CleanSection(line) == ""
  }

  /** The paragraphs one stripped CV line adds, or None where the line raises. */
  function CvLineParagraphs(line: string): (r: Option<seq<Paragraph>>)
    ensures r.None? <==> CvLineRaises(line)
    ensures r.Some? ==> |r.value| <= 2 && (r.value == [] <==> line == "")
    ensures ClassifyCvLine(line) == Section && !CvLineRaises(line) ==>
      r == Some([Spacer, SectionHeading(CleanSection(line))]) && SectionMark !in CleanSection(line)
    ensures ClassifyCvLine(line) == BulletPoint ==> r == Some([BulletItem(Parse(Strip(line[2..])))])
    ensures ClassifyCvLine(line) == ProjectHeader ==> r == Some([ProjectHeading(Parse(line))])
    ensures ClassifyCvLine(line) == Regular ==> r == Some([Formatted(Parse(line))])
  {
    match ClassifyCvLine(line)
    case Blank => Some([])
    case Name => Some([NameHeading(Strip(line[2..]))])
    case JobTitle => Some([Tagline(Unwrap(line))])
    case Contact => Some([ContactLine(CleanContact(line))])
    case Section =>
      var heading := CleanSection(line);
      if heading == "" then None else Some([Spacer, SectionHeading(heading)])
    case Rule => Some([Spacer])
    case BulletPoint => Some([BulletItem(Parse(Strip(line[2..])))])
    case ProjectHeader => Some([ProjectHeading(Parse(line))])
    case TableRow => Some([])
    case Regular => Some([Formatted(Parse(line))])
  }

  /** A heading made only of the diamond is the line that raises. */
  lemma EmptySectionRaises()
    ensures CvLineParagraphs("## \U{1F539}").None?
  {
    DiamondLineIsSection();
    DiamondHeadingEmpty();
  }

  lemma DiamondLineIsSection()
    ensures ClassifyCvLine("## \U{1F539}") == Section
  {
    var line := "## \U{1F539}";
    assert forall c :: c in line ==> c == '#' || c == ' ' || c == SectionMark;
    assert '|' !in line && !HasContactEmoji(line);
    assert line[..3] == "## ";
  }

  lemma DiamondHeadingEmpty()
    ensures CleanSection("## \U{1F539}") == ""
  {
    var mark := "\U{1F539}";
    assert "## \U{1F539}"[2..] == " " + mark;
    DiamondStrip();
    assert ReplaceChar(mark, SectionMark, "") == "";
  }

  lemma DiamondStrip()
    ensures Strip(" \U{1F539}") == "\U{1F539}"
  {
    var mark := [SectionMark];
    assert !IsSpace(SectionMark);
    assert TrimStart(mark) == mark;
    assert TrimEnd(mark) == mark;
    assert [' '] + mark == " \U{1F539}";
    assert ([' '] + mark)[1..] == mark;
    assert TrimStart([' '] + mark) == mark;
  }

  /** A horizontal rule only adds space. */
  lemma RuleIsSpacer()
    ensures CvLineParagraphs("---") == Some([Spacer])
  {
    var rule := "---";
    assert forall c :: c in rule ==> c == '-';
    assert !HasContactEmoji(rule);
    assert rule[0] == '-' && rule[|rule| - 1] == '-';
    assert ClassifyCvLine(rule) == Rule;
  }

  /** Paragraphs so far, then one more line's: None once any line has raised. */
  function AppendParagraphs(document: Option<seq<Paragraph>>, added: Option<seq<Paragraph>>): Option<seq<Paragraph>> {
    if document.Some? && added.Some? then Some(document.value + added.value) else None
  }

  /** Some line of the CV, once stripped, raises. */
  predicate SomeLineRaises(lines: seq<string>) {
    lines != [] && (SomeLineRaises(lines[..|lines| - 1]) || CvLineRaises(Strip(lines[|lines| - 1])))
  }

  /** The paragraphs of a whole CV, each line stripped and then classified; None when some line raises. */
  function CvDocument(lines: seq<string>): (r: Option<seq<Paragraph>>)
    ensures r.None? <==> SomeLineRaises(lines)
    ensures r.Some? ==> |r.value| <= 2 * |lines|
  {
    if lines == [] then Some([])
    else AppendParagraphs(CvDocument(lines[..|lines| - 1]), CvLineParagraphs(Strip(lines[|lines| - 1])))
  }

  /** Any raising line makes the whole CV raise, wherever it stands. */
  lemma {:induction false} RaisingLineStops(lines: seq<string>, i: nat)
    requires i < |lines| && CvLineRaises(Strip(lines[i]))
    ensures SomeLineRaises(lines)
    decreases |lines|
  {
    if i < |lines| - 1 {
      var init := lines[..|lines| - 1];
      assert init[i] == lines[i];
      RaisingLineStops(init, i);
    }
  }

  /** Taking one more line appends that line's paragraphs. */
  lemma CvDocumentSnoc(lines: seq<string>, i: nat)
    requires i < |lines|
    ensures CvDocument(lines[..i + 1]) == AppendParagraphs(CvDocument(lines[..i]), CvLineParagraphs(Strip(lines[i])))
  {
    var prefix := lines[..i + 1];
    assert prefix[..|prefix| - 1] == lines[..i] && prefix[|prefix| - 1] == lines[i];
  }

  lemma CvDocumentAll(lines: seq<string>)
    ensures CvDocument(lines[..|lines|]) == CvDocument(lines)
  {
    assert lines[..|lines|] == lines;
  }

  /** The body of the CV loop for one line, segmenting with the imperative parser. */
  method AddCvLine(raw: string) returns (paragraphs: Option<seq<Paragraph>>)
    ensures paragraphs == CvLineParagraphs(Strip(raw))
  {
    var line := Strip(raw);
    var kind := ClassifyCvLine(line);
    if kind == BulletPoint {
      var content := ParseInlineFormatting(Strip(line[2..]));
      paragraphs := Some([BulletItem(content)]);
    } else if kind == ProjectHeader {
      var content := ParseInlineFormatting(line);
      paragraphs := Some([ProjectHeading(content)]);
    } else if kind == Regular {
      var content := ParseInlineFormatting(line);
      paragraphs := Some([Formatted(content)]);
    } else {
      paragraphs := CvLineParagraphs(line);
    }
  }

  /**
   * parse_markdown_to_docx: split into lines and add each line's paragraphs in order;
   * the first line that raises ends the call with no document.
   */
  method ParseMarkdownToDocx(markdownText: string) returns (document: Option<seq<Paragraph>>)
    ensures document == CvDocument(Split(markdownText, '\n'))
    ensures document.None? <==> SomeLineRaises(Split(markdownText, '\n'))
  {
    var lines := Split(markdownText, '\n');
    var paragraphs: seq<Paragraph> := [];
    var i := 0;
    while i < |lines|
      invariant 0 <= i <= |lines|
      invariant CvDocument(lines[..i]) == Some(paragraphs)
    {
      var added := AddCvLine(lines[i]);
      if added.None? {
        RaisingLineStops(lines, i);
        return None;
      }
      CvDocumentSnoc(lines, i);
      paragraphs := paragraphs + added.value;
      i := i + 1;
    }
    CvDocumentAll(lines);
    document := Some(paragraphs);
  }


  /** Blank and whitespace-only lines add nothing; a rule adds only a spacer. */
  lemma {:induction false} CvDocumentAppend(lines: seq<string>, line: string)
    ensures Strip(line) == "" ==> CvDocument(lines + [line]) == CvDocument(lines)
    ensures Strip(line) == "---" ==> CvDocument(lines + [line]) == AppendParagraphs(CvDocument(lines), Some([Spacer]))
  {
    var all := lines + [line];
    assert all[..|all| - 1] == lines && all[|all| - 1] == line;
    assert CvDocument(all) == AppendParagraphs(CvDocument(lines), CvLineParagraphs(Strip(line)));
    if Strip(line) == "" {
      assert CvLineParagraphs("") == Some([]);
      if CvDocument(lines).Some? {
        assert CvDocument(lines).value + [] == CvDocument(lines).value;
      }
    }
    if Strip(line) == "---" {
      RuleIsSpacer();
    }
  }
}
