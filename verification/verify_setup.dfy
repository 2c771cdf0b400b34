/**
 * The health check of a seeded store: per-type counts, the critical minimums,
 * the coverage of required skills by the skills summary, the embeddings status,
 * the grouped block listing with its priority stars, and the final recommendation.
 */
module Health {
  import opened Wrappers
  import opened Text
  import opened Models
  import opened Selection

  // ---------------------------------------------------------------------------
  // Counts and critical minimums
  // ---------------------------------------------------------------------------

  /** `.filter(block_type == t).count()` */
  function CountOfType(blocks: seq<Block>, t: BlockType): nat {
    |OfType(blocks, t)|
  }

  /** Every block type is one of the five declared ones. */
  lemma AllBlockTypesListed(t: BlockType)
    ensures t in AllBlockTypes
  {
    match t
    case PillarProject => assert AllBlockTypes[0] == t;
    case SupportingProject => assert AllBlockTypes[1] == t;
    case Employment => assert AllBlockTypes[2] == t;
    case Education => assert AllBlockTypes[3] == t;
    case SkillsSummary => assert AllBlockTypes[4] == t;
  }

  /** The block_counts loop: one entry per block type, holding that type's count. */
  method CountBlocks(blocks: seq<Block>) returns (counts: map<BlockType, nat>)
    ensures forall t :: t in counts && counts[t] == CountOfType(blocks, t)
  {
    counts := map[];
    for i := 0 to |AllBlockTypes|
      invariant forall j :: 0 <= j < i ==> AllBlockTypes[j] in counts
      invariant forall t :: t in counts ==> counts[t] == CountOfType(blocks, t)
    {
      var blockType := AllBlockTypes[i];
      counts := counts[blockType := CountOfType(blocks, blockType)];
    }
    forall t ensures t in counts {
      AllBlockTypesListed(t);
    }
  }

  /** `block_counts.get(t, 0)` */
  function CountIn(counts: map<BlockType, nat>, t: BlockType): nat {
    if t in counts then counts[t] else 0
  }

  datatype CriticalCheck = CriticalCheck(name: string, blockType: BlockType, minimum: nat)

  /** The critical checks, in the order they are reported. */
  const CriticalChecks: seq<CriticalCheck> := [
    CriticalCheck("Skills Summary", SkillsSummary, 1),
    CriticalCheck("Pillar Projects", PillarProject, 2),
    CriticalCheck("Employment", Employment, 1),
    CriticalCheck("Education", Education, 1)
  ]

  /** The all_critical_present loop: the flag stays set exactly when every check meets its minimum. */
  method CheckCritical(counts: map<BlockType, nat>) returns (allPresent: bool)
    ensures allPresent <==> forall c :: c in CriticalChecks ==> CountIn(counts, c.blockType) >= c.minimum
  {
    allPresent := true;
    for i := 0 to |CriticalChecks|
      invariant allPresent <==>
                  forall j :: 0 <= j < i ==> CountIn(counts, CriticalChecks[j].blockType) >= CriticalChecks[j].minimum
    {
      var check := CriticalChecks[i];
      if CountIn(counts, check.blockType) < check.minimum {
        allPresent := false;
      }
    }
    assert forall c :: c in CriticalChecks <==> exists j :: 0 <= j < |CriticalChecks| && CriticalChecks[j] == c;
  }

  /** The minimums the store must meet. */
  predicate CriticalPresent(blocks: seq<Block>) {
    CountOfType(blocks, SkillsSummary) >= 1 && CountOfType(blocks, PillarProject) >= 2 &&
    CountOfType(blocks, Employment) >= 1 && CountOfType(blocks, Education) >= 1
  }

  /** Over the true counts, the critical checks pass exactly when the four minimums hold. */
  lemma CriticalThresholds(blocks: seq<Block>, counts: map<BlockType, nat>)
    requires forall t :: t in counts && counts[t] == CountOfType(blocks, t)
    ensures (forall c :: c in CriticalChecks ==> CountIn(counts, c.blockType) >= c.minimum) <==> CriticalPresent(blocks)
  {
    if CriticalPresent(blocks) {
      forall c | c in CriticalChecks ensures CountIn(counts, c.blockType) >= c.minimum {
      }
    } else {
      assert CriticalChecks[0] in CriticalChecks && CriticalChecks[1] in CriticalChecks;
      assert CriticalChecks[2] in CriticalChecks && CriticalChecks[3] in CriticalChecks;
    }
  }

  // ---------------------------------------------------------------------------
  // Skills coverage
  // ---------------------------------------------------------------------------

  const RequiredSkills: seq<string> := ["Laravel", "React", "Docker", "PostgreSQL", "Python"]

  /** A skill counts as covered when the content holds it (case-sensitively) or the non-empty tag list lists it exactly. */
  predicate SkillPresent(summary: Block, skill: string) {
    Contains(summary.content, skill) || (summary.tags.Some? && summary.tags.value != [] && skill in summary.tags.value)
  }

  /** The skills of the list the summary does not cover, in list order. */
  function Missing(summary: Block, skills: seq<string>): seq<string>
    decreases |skills|
  {
    if skills == [] then []
    else Missing(summary, skills[..|skills| - 1]) +
         (if SkillPresent(summary, skills[|skills| - 1]) then [] else [skills[|skills| - 1]])
  }

  /** A skill is reported missing exactly when it is required and not covered. */
  lemma {:induction false} MissingIff(summary: Block, skills: seq<string>, s: string)
    ensures s in Missing(summary, skills) <==> s in skills && !SkillPresent(summary, s)
    decreases |skills|
  {
    if skills != [] {
      var m := |skills| - 1;
      MissingIff(summary, skills[..m], s);
      assert skills == skills[..m] + [skills[m]];
    }
  }

  /** The missing_skills loop. */
  method CollectMissingSkills(summary: Block) returns (missing: seq<string>)
    ensures missing == Missing(summary, RequiredSkills)
  {
    missing := [];
    for i := 0 to |RequiredSkills|
      invariant missing == Missing(summary, RequiredSkills[..i])
    {
      assert RequiredSkills[..i + 1][..i] == RequiredSkills[..i];
      var skill := RequiredSkills[i];
      if !SkillPresent(summary, skill) {
        missing := missing + [skill];
      }
    }
    assert RequiredSkills[..|RequiredSkills|] == RequiredSkills;
  }

  // ---------------------------------------------------------------------------
  // Embeddings
  // ---------------------------------------------------------------------------

  /** `.filter(embedding.isnot(None)).count()` */
  function EmbeddedCount(blocks: seq<Block>): nat {
    |Filter(blocks, (b: Block) => b.embedding.Some?)|
  }

  /** A filtered query returns every row exactly when every row passes the filter. */
  lemma {:induction false} FilterKeepsAll(s: seq<Block>, p: Block -> bool)
    ensures |Filter(s, p)| == |s| <==> forall b :: b in s ==> p(b)
    decreases |s|
  {
    if s != [] {
      FilterKeepsAll(s[1..], p);
      assert forall b :: b in s <==> b == s[0] || b in s[1..];
    }
  }

  /** The embeddings check passes exactly when no block lacks an embedding. */
  lemma EmbeddingsComplete(blocks: seq<Block>)
    ensures EmbeddedCount(blocks) <= |blocks|
    ensures EmbeddedCount(blocks) == |blocks| <==> forall b :: b in blocks ==> b.embedding.Some?
  {
    FilterKeepsAll(blocks, (b: Block) => b.embedding.Some?);
  }

  // ---------------------------------------------------------------------------
  // Listing
  // ---------------------------------------------------------------------------

  predicate IsDigits(s: string) {
    s != [] && forall i :: 0 <= i < |s| ==> '0' <= s[i] <= '9'
  }

  /** The decimal value of a digit string. */
  function DigitsValue(s: string): nat
    requires IsDigits(s)
    decreases |s|
  {
    var d := (s[|s| - 1] as int - '0' as int) as nat;
    if |s| == 1 then d else 10 * DigitsValue(s[..|s| - 1]) + d
  }

  /** int(s) for a string: optional surrounding whitespace, an optional sign, decimal digits; None where Python raises. */
  function ParseInt(s: string): (r: Option<int>)
    ensures r.Some? ==> Strip(s) != []
  {
    var t := Strip(s);
    if t != [] && (t[0] == '+' || t[0] == '-') then
      if IsDigits(t[1..]) then
        var v: int := DigitsValue(t[1..]);
        Some(if t[0] == '-' then -v else v)
      else None
    else if IsDigits(t) then Some(DigitsValue(t))
    else None
  }

  /** A digit string parses to its own value. */
  lemma ParseDigits(s: string)
    requires IsDigits(s)
    ensures ParseInt(s) == Some(DigitsValue(s))
  {
    DigitsUntrimmed(s);
  }

  lemma DigitsUntrimmed(s: string)
    requires IsDigits(s)
    ensures Strip(s) == s
  {
    assert '0' <= s[0] <= '9' && '0' <= s[|s| - 1] <= '9';
    assert TrimStart(s) == s;
  }

  /** `"⭐" * int(priority or "3")`: the number of stars, or None where int() raises. A negative count repeats nothing. */
  function Stars(priority: Option<string>): Option<nat> {
    var text := if priority.None? || priority.value == "" then "3" else priority.value;
    match ParseInt(text)
    case None => None
    case Some(n) => Some(if n < 0 then 0 else n)
  }

  /** A priority written as digits gives that many stars; a missing or empty one gives three. */
  lemma StarsOfDigits(priority: Option<string>)
    ensures priority.None? || priority == Some("") ==> Stars(priority) == Some(3)
    ensures priority.Some? && IsDigits(priority.value) ==> Stars(priority) == Some(DigitsValue(priority.value))
  {
    if priority.Some? && IsDigits(priority.value) {
      ParseDigits(priority.value);
    } else {
      ParseDigits("3");
    }
  }

  /** One printed line of the listing: a group header, or a block with its stars and a sample of at most five tags. */
  datatype ListingLine =
    | Header(blockType: BlockType)
    | Entry(stars: nat, title: string, tagSummary: Option<(nat, string)>)

  /** The tag count and the first five tags joined, printed only for a non-empty tag list. */
  function TagSummary(tags: Option<seq<string>>): (r: Option<(nat, string)>)
    ensures r.Some? <==> tags.Some? && tags.value != []
    ensures r.Some? ==> r.value.0 == |tags.value|
  {
    if tags.Some? && tags.value != [] then
      Some((|tags.value|, Join(tags.value[..if |tags.value| < 5 then |tags.value| else 5], ", ")))
    else None
  }

  /** A block opens a group when it is the first or its type differs from the previous block's. */
  predicate StartsGroup(ordered: seq<Block>, i: nat)
    requires i < |ordered|
  {
    i == 0 || ordered[i - 1].blockType != ordered[i].blockType
  }

  /** The lines printed for block i, given its star count: a header when it opens a group, then its entry. */
  function BlockLines(ordered: seq<Block>, i: nat, stars: nat): seq<ListingLine>
    requires i < |ordered|
  {
    (if StartsGroup(ordered, i) then [Header(ordered[i].blockType)] else []) +
    [Entry(stars, ordered[i].title, TagSummary(ordered[i].tags))]
  }

  /** The lines printed for the blocks in the order the query returns them; None where a priority is not an integer. */
  function Listing(ordered: seq<Block>): Option<seq<ListingLine>>
    decreases |ordered|
  {
    if ordered == [] then Some([])
    else
      var m := |ordered| - 1;
      match Listing(ordered[..m])
      case None => None
      case Some(lines) =>
        match Stars(ordered[m].priority)
        case None => None
        case Some(n) => Some(lines + BlockLines(ordered, m, n))
  }

  lemma ListingSnoc(ordered: seq<Block>, i: nat)
    requires i < |ordered|
    ensures Listing(ordered[..i + 1]) ==
              match Listing(ordered[..i])
              case None => None
              case Some(lines) =>
                match Stars(ordered[i].priority)
                case None => None
                case Some(n) => Some(lines + BlockLines(ordered, i, n))
  {
    assert ordered[..i + 1][..i] == ordered[..i];
    assert StartsGroup(ordered[..i + 1], i) == StartsGroup(ordered, i);
  }

  lemma ListingPrefixNone(ordered: seq<Block>, i: nat)
    requires i <= |ordered| && Listing(ordered[..i]).None?
    ensures Listing(ordered).None?
    decreases |ordered| - i
  {
    if i < |ordered| {
      ListingSnoc(ordered, i);
      ListingPrefixNone(ordered, i + 1);
    } else {
      assert ordered[..i] == ordered;
    }
  }

  /** The listing loop, tracking the type of the group being printed. */
  method ListBlocks(ordered: seq<Block>) returns (r: Option<seq<ListingLine>>)
    ensures r == Listing(ordered)
  {
    var lines := [];
    var currentType: Option<BlockType> := None;
    for i := 0 to |ordered|
      invariant Listing(ordered[..i]) == Some(lines)
      invariant currentType == if i == 0 then None else Some(ordered[i - 1].blockType)
    {
      ListingSnoc(ordered, i);
      var block := ordered[i];
      var header := [];
      if Some(block.blockType) != currentType {
        currentType := Some(block.blockType);
        header := [Header(block.blockType)];
      }
      var stars := Stars(block.priority);
      if stars.None? {
        ListingPrefixNone(ordered, i + 1);
        return None;
      }
      var blockLines := header + [Entry(stars.value, block.title, TagSummary(block.tags))];
      assert blockLines == BlockLines(ordered, i, stars.value);
      assert Listing(ordered[..i + 1]) == Some(lines + blockLines);
      lines := lines + blockLines;
    }
    assert ordered[..|ordered|] == ordered;
    r := Some(lines);
  }

  /** The declaration position of a block type, the order of the enum column. */
  function Rank(t: BlockType): nat {
    match t
    case PillarProject => 0
    case SupportingProject => 1
    case Employment => 2
    case Education => 3
    case SkillsSummary => 4
  }

  /** ORDER BY block_type: the types never decrease along the rows. */
  predicate SortedByType(ordered: seq<Block>) {
    forall i, j :: 0 <= i < j < |ordered| ==> Rank(ordered[i].blockType) <= Rank(ordered[j].blockType)
  }

  /** The types of the header lines, in order. */
  function HeaderTypes(lines: seq<ListingLine>): seq<BlockType>
    decreases |lines|
  {
    if lines == [] then []
    else HeaderTypes(lines[..|lines| - 1]) + (if lines[|lines| - 1].Header? then [lines[|lines| - 1].blockType] else [])
  }

  lemma {:induction false} HeaderTypesConcat(a: seq<ListingLine>, b: seq<ListingLine>)
    ensures HeaderTypes(a + b) == HeaderTypes(a) + HeaderTypes(b)
    decreases |b|
  {
    if b == [] {
      assert a + b == a;
    } else {
      HeaderTypesConcat(a, b[..|b| - 1]);
      assert (a + b)[..|a + b| - 1] == a + b[..|b| - 1];
    }
  }

  lemma HeaderTypesOne(line: ListingLine)
    ensures HeaderTypes([line]) == if line.Header? then [line.blockType] else []
  {
    assert [line][..0] == [];
  }

  /** The types of the blocks that open a group, in order. */
  function GroupTypes(ordered: seq<Block>): seq<BlockType>
    decreases |ordered|
  {
    if ordered == [] then []
    else
      var m := |ordered| - 1;
      GroupTypes(ordered[..m]) + (if StartsGroup(ordered, m) then [ordered[m].blockType] else [])
  }

  /** The listing prints one header per group opening, in order. */
  lemma {:induction false} ListingHeaders(ordered: seq<Block>)
    requires Listing(ordered).Some?
    ensures HeaderTypes(Listing(ordered).value) == GroupTypes(ordered)
    decreases |ordered|
  {
    if ordered != [] {
      var m := |ordered| - 1;
      ListingHeaders(ordered[..m]);
      var lines := Listing(ordered[..m]).value;
      var n := Stars(ordered[m].priority).value;
      var mid: seq<ListingLine> := if StartsGroup(ordered, m) then [Header(ordered[m].blockType)] else [];
      var tail := [Entry(n, ordered[m].title, TagSummary(ordered[m].tags))];
      assert BlockLines(ordered, m, n) == mid + tail;
      HeaderTypesConcat(lines, mid + tail);
      HeaderTypesConcat(mid, tail);
      HeaderTypesOne(tail[0]);
      if mid != [] {
        HeaderTypesOne(mid[0]);
      }
    }
  }

  predicate StrictlyIncreasing(ts: seq<BlockType>) {
    forall i, j :: 0 <= i < j < |ts| ==> Rank(ts[i]) < Rank(ts[j])
  }

  lemma StrictSnoc(ts: seq<BlockType>, t: BlockType)
    requires StrictlyIncreasing(ts) && (ts != [] ==> Rank(ts[|ts| - 1]) < Rank(t))
    ensures StrictlyIncreasing(ts + [t])
  {
    forall i, j | 0 <= i < j < |ts + [t]| ensures Rank((ts + [t])[i]) < Rank((ts + [t])[j]) {
      if j == |ts| && i < |ts| - 1 {
        assert Rank(ts[i]) < Rank(ts[|ts| - 1]);
      }
    }
  }

  /**
   * Over rows sorted by type, the group openings carry strictly increasing types,
   * and every row's type opens a group: each type heads exactly one group.
   */
  lemma {:induction false} GroupedTypes(ordered: seq<Block>)
    requires SortedByType(ordered)
    ensures var gs := GroupTypes(ordered);
      StrictlyIncreasing(gs) &&
      (forall i :: 0 <= i < |ordered| ==> ordered[i].blockType in gs) &&
      (ordered != [] ==> gs != [] && gs[|gs| - 1] == ordered[|ordered| - 1].blockType)
    decreases |ordered|
  {
    if ordered != [] {
      var m := |ordered| - 1;
      SortedPrefix(ordered, m);
      GroupedTypes(ordered[..m]);
      GroupTypesSnoc(ordered);
      GroupStep(ordered, ordered[..m], GroupTypes(ordered[..m]), GroupTypes(ordered));
    }
  }

  lemma SortedPrefix(ordered: seq<Block>, m: nat)
    requires SortedByType(ordered) && m <= |ordered|
    ensures SortedByType(ordered[..m])
  {
    var prefix := ordered[..m];
    forall i, j | 0 <= i < j < |prefix| ensures Rank(prefix[i].blockType) <= Rank(prefix[j].blockType) {
      assert prefix[i] == ordered[i] && prefix[j] == ordered[j];
    }
  }

  lemma GroupTypesSnoc(ordered: seq<Block>)
    requires ordered != []
    ensures GroupTypes(ordered) == GroupTypes(ordered[..|ordered| - 1]) +
              (if StartsGroup(ordered, |ordered| - 1) then [ordered[|ordered| - 1].blockType] else [])
  {
  }

  /**
   * The header types after one more row of type t, whose predecessor (if any) had
   * type prev: a new header only when the type changes, never to a lower rank.
   */
  lemma OpeningStep(gs0: seq<BlockType>, gs: seq<BlockType>, prev: Option<BlockType>, t: BlockType)
    requires StrictlyIncreasing(gs0)
    requires prev.None? ==> gs0 == []
    requires prev.Some? ==> gs0 != [] && gs0[|gs0| - 1] == prev.value && Rank(prev.value) <= Rank(t)
    requires gs == gs0 + (if prev.None? || prev.value != t then [t] else [])
    ensures StrictlyIncreasing(gs) && gs != [] && gs[|gs| - 1] == t
    ensures forall x :: x in gs0 ==> x in gs
  {
    if prev.None? || prev.value != t {
      if prev.Some? {
        RankInjective(prev.value, t);
      }
      StrictSnoc(gs0, t);
    }
  }

  /**
   * The inductive step of GroupedTypes: one more sorted row keeps the openings
   * gs0 of the earlier rows increasing and covering in the openings gs of all rows.
   */
  lemma GroupStep(ordered: seq<Block>, prefix: seq<Block>, gs0: seq<BlockType>, gs: seq<BlockType>)
    requires ordered != [] && prefix == ordered[..|ordered| - 1] && SortedByType(ordered)
    requires StrictlyIncreasing(gs0)
    requires forall i :: 0 <= i < |prefix| ==> prefix[i].blockType in gs0
    requires prefix == [] ==> gs0 == []
    requires prefix != [] ==> gs0 != [] && gs0[|gs0| - 1] == prefix[|prefix| - 1].blockType
    requires gs == gs0 + (if StartsGroup(ordered, |prefix|) then [ordered[|prefix|].blockType] else [])
    ensures StrictlyIncreasing(gs) && gs != [] && gs[|gs| - 1] == ordered[|ordered| - 1].blockType
    ensures forall i :: 0 <= i < |ordered| ==> ordered[i].blockType in gs
  {
    var m := |prefix|;
    var prev := if m == 0 then None else Some(ordered[m - 1].blockType);
    if m > 0 {
      assert prefix[m - 1] == ordered[m - 1];
      assert Rank(ordered[m - 1].blockType) <= Rank(ordered[m].blockType);
    }
    OpeningStep(gs0, gs, prev, ordered[m].blockType);
    forall i | 0 <= i < |ordered| ensures ordered[i].blockType in gs {
      if i < m {
        assert prefix[i] == ordered[i];
        assert ordered[i].blockType in gs0;
      } else {
        assert gs[|gs| - 1] == ordered[i].blockType;
      }
    }
  }

  /** Over rows sorted by type, the listing prints one header per type present, in declaration order. */
  lemma GroupedHeaders(ordered: seq<Block>)
    requires SortedByType(ordered) && Listing(ordered).Some?
    ensures var hs := HeaderTypes(Listing(ordered).value);
      StrictlyIncreasing(hs) && forall i :: 0 <= i < |ordered| ==> ordered[i].blockType in hs
  {
    ListingHeaders(ordered);
    GroupedTypes(ordered);
  }

  lemma RankInjective(a: BlockType, b: BlockType)
    requires a != b
    ensures Rank(a) != Rank(b)
  {
  }

  // ---------------------------------------------------------------------------
  // Recommendation and the whole check
  // ---------------------------------------------------------------------------

  datatype Recommendation = FixCriticalBlocks | RegenerateEmbeddings | Healthy

  /** Missing critical blocks come first, then missing embeddings; otherwise the store is healthy. */
  function Recommend(allCritical: bool, embedded: nat, total: nat): Recommendation {
    if !allCritical then FixCriticalBlocks
    else if embedded < total then RegenerateEmbeddings
    else Healthy
  }

  /** The store is called healthy exactly when the minimums hold and every block has an embedding. */
  lemma RecommendationIff(blocks: seq<Block>)
    ensures var r := Recommend(CriticalPresent(blocks), EmbeddedCount(blocks), |blocks|);
      (r == FixCriticalBlocks <==> !CriticalPresent(blocks)) &&
      (r == RegenerateEmbeddings <==> CriticalPresent(blocks) && exists b :: b in blocks && b.embedding.None?) &&
      (r == Healthy <==> CriticalPresent(blocks) && forall b :: b in blocks ==> b.embedding.Some?)
  {
    EmbeddingsComplete(blocks);
  }

  /** What a verification run reports. */
  datatype Report =
    | NoPersonalInfo
    | Checked(
        counts: map<BlockType, nat>,
        allCritical: bool,
        missingSkills: Option<seq<string>>,  // None when there is no skills summary block
        total: nat,
        embedded: nat,
        listing: Option<seq<ListingLine>>,   // None when a priority is not an integer and the run aborts
        recommendation: Option<Recommendation>)

  /**
   * verify_setup over the personal-info rows, the blocks in store order, and the
   * blocks as the ORDER BY block_type, priority query returns them.
   */
  method VerifySetup(personal: seq<PersonalInfo>, blocks: seq<Block>, ordered: seq<Block>) returns (r: Report)
    ensures r.NoPersonalInfo? <==> personal == []
    ensures r.Checked? ==> forall t :: t in r.counts && r.counts[t] == CountOfType(blocks, t)
    ensures r.Checked? ==> (r.allCritical <==> CriticalPresent(blocks))
    ensures r.Checked? ==> r.missingSkills == match FirstOfType(blocks, SkillsSummary)
                                              case None => None
                                              case Some(s) => Some(Missing(s, RequiredSkills))
    ensures r.Checked? ==> r.total == |blocks| && r.embedded == EmbeddedCount(blocks)
    ensures r.Checked? ==> r.listing == Listing(ordered)
    ensures r.Checked? ==> (r.recommendation.Some? <==> r.listing.Some?)
    ensures r.Checked? && r.recommendation.Some? ==>
              r.recommendation.value == Recommend(CriticalPresent(blocks), EmbeddedCount(blocks), |blocks|)
  {
    if personal == [] {
      return NoPersonalInfo;
    }
    var counts := CountBlocks(blocks);
    var allCritical := CheckCritical(counts);
    CriticalThresholds(blocks, counts);
    var summary := FirstOfType(blocks, SkillsSummary);
    var missingSkills: Option<seq<string>> := None;
    if summary.Some? {
      var missing := CollectMissingSkills(summary.value);
      missingSkills := Some(missing);
    }
    var total := |blocks|;
    var embedded := EmbeddedCount(blocks);
    var listing := ListBlocks(ordered);
    var recommendation: Option<Recommendation> := None;
    if listing.Some? {
      recommendation := Some(Recommend(allCritical, embedded, total));
    }
    r := Checked(counts, allCritical, missingSkills, total, embedded, listing, recommendation);
  }
}
