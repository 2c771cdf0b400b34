/**
 * The hybrid block-selection engine (select_relevant_blocks): six ordered stages
 * accumulate a result list and a set of selected ids over the experience-block table.
 *
 * The table is a sequence in store order; a query without ORDER BY returns its
 * rows in that order. The job's skills and embedding arrive as parameters, and
 * the cosine distance of pgvector is an arbitrary function `distance`.
 */
module Selection {
  import opened Wrappers
  import opened Text
  import opened Models

  /** Blocks of one type, in store order. */
  function OfType(store: seq<Block>, t: BlockType): (r: seq<Block>)
    ensures forall b :: b in r <==> b in store && b.blockType == t
  {
    Filter(store, (b: Block) => b.blockType == t)
  }

  /** Blocks of one type keep their store order: the blocks of a + b are those of a, then those of b. */
  lemma OfTypeConcat(a: seq<Block>, b: seq<Block>, t: BlockType)
    ensures OfType(a + b, t) == OfType(a, t) + OfType(b, t)
  {
    FilterConcat(a, b, (x: Block) => x.blockType == t);
  }

  /** `.filter(block_type == t).first()`: the first block of type t in store order. */
  function FirstOfType(store: seq<Block>, t: BlockType): (r: Option<Block>)
    ensures r.Some? <==> exists b :: b in store && b.blockType == t
    ensures r.Some? ==> r.value in store && r.value.blockType == t && r.value == OfType(store, t)[0]
  {
    var all := OfType(store, t);
    if all == [] then None else assert all[0] in all; Some(all[0])
  }

  /** `.first()` finds the block of type t that comes first in store order. */
  lemma FirstOfTypeIsFirst(store: seq<Block>, t: BlockType)
    ensures var r := FirstOfType(store, t);
      r.Some? ==> exists i :: 0 <= i < |store| && store[i] == r.value &&
                              forall j :: 0 <= j < i ==> store[j].blockType != t
  {
    FilterFirst(store, (x: Block) => x.blockType == t);
  }

  /**
   * `.filter(block_type == t).order_by(desc(created_at)).first()`: a block of type t
   * with the latest creation time; among equal times, the first in store order.
   */
  function LatestOfType(store: seq<Block>, t: BlockType): (r: Option<Block>)
    ensures r.Some? <==> exists b :: b in store && b.blockType == t
    ensures r.Some? ==> r.value in store && r.value.blockType == t
    ensures r.Some? ==> forall b :: b in store && b.blockType == t ==> b.createdAt <= r.value.createdAt
  {
    if store == [] then None
    else
      var rest := LatestOfType(store[1..], t);
      assert forall b :: b in store <==> b == store[0] || b in store[1..];
      if store[0].blockType == t && (rest.None? || rest.value.createdAt <= store[0].createdAt)
      then Some(store[0])
      else rest
  }

  /** The tag test of stage 3: a non-empty tag list with a tag containing the skill, ignoring case. */
  predicate MatchesSkill(b: Block, skill: string) {
    b.tags.Some? && |b.tags.value| > 0 && AnyTagContains(b.tags.value, Lower(skill))
  }

  /** `any(needle in tag.lower() for tag in tags)`. */
  predicate AnyTagContains(tags: seq<string>, needle: string) {
    |tags| > 0 && (Contains(Lower(tags[0]), needle) || AnyTagContains(tags[1..], needle))
  }

  /** The generator test holds exactly when some tag contains the needle. */
  lemma {:induction false} AnyTagContainsExists(tags: seq<string>, needle: string)
    ensures AnyTagContains(tags, needle) <==> exists tag :: tag in tags && Contains(Lower(tag), needle)
  {
    if |tags| > 0 {
      AnyTagContainsExists(tags[1..], needle);
      assert forall tag :: tag in tags <==> tag == tags[0] || tag in tags[1..];
    }
  }

  /** Stage 3's query: not-yet-selected supporting or pillar projects, in store order. */
  function SkillCandidates(store: seq<Block>, seen: set<nat>): (r: seq<Block>)
    ensures forall b :: b in r <==>
      (b in store && b.id !in seen && (b.blockType == SupportingProject || b.blockType == PillarProject))
  {
    Filter(store, (b: Block) => b.id !in seen && (b.blockType == SupportingProject || b.blockType == PillarProject))
  }

  /** The first candidate whose tags match the skill (the inner loop with its `break`). */
  function FirstMatch(candidates: seq<Block>, skill: string): (r: Option<Block>)
    ensures r.Some? ==> r.value in candidates && MatchesSkill(r.value, skill)
    ensures r.None? <==> forall b :: b in candidates ==> !MatchesSkill(b, skill)
  {
    if candidates == [] then None
    else if MatchesSkill(candidates[0], skill) then Some(candidates[0])
    else
      assert forall b :: b in candidates <==> b == candidates[0] || b in candidates[1..];
      FirstMatch(candidates[1..], skill)
  }

  /** The match found is the first candidate that matches: every candidate before it fails the test. */
  lemma {:induction false} FirstMatchIsFirst(candidates: seq<Block>, skill: string)
    ensures var r := FirstMatch(candidates, skill);
      r.Some? ==> exists i :: 0 <= i < |candidates| && candidates[i] == r.value &&
                              forall j :: 0 <= j < i ==> !MatchesSkill(candidates[j], skill)
    decreases |candidates|
  {
    if candidates != [] && !MatchesSkill(candidates[0], skill) {
      var rest := FirstMatch(candidates[1..], skill);
      FirstMatchIsFirst(candidates[1..], skill);
      if rest.Some? {
        var i :| 0 <= i < |candidates[1..]| && candidates[1..][i] == rest.value &&
                 forall j :: 0 <= j < i ==> !MatchesSkill(candidates[1..][j], skill);
        forall j | 0 <= j < i + 1 ensures !MatchesSkill(candidates[j], skill) {
          if j > 0 { assert candidates[j] == candidates[1..][j - 1]; }
        }
        assert candidates[i + 1] == rest.value;
      }
    }
  }

  /**
   * Stage 3: for each skill in order, the first unseen candidate that matches it, if
   * any; a block once chosen is seen and never chosen again.
   */
  function SkillStage(store: seq<Block>, skills: seq<string>, seen: set<nat>): (r: seq<Block>)
    ensures |r| <= |skills|
    decreases |skills|
  {
    if skills == [] then []
    else
      match FirstMatch(SkillCandidates(store, seen), skills[0])
      case None => SkillStage(store, skills[1..], seen)
      case Some(b) => [b] + SkillStage(store, skills[1..], seen + {b.id})
  }

  /**
   * What stage 3 adds: unseen supporting or pillar projects of the table, each matching
   * one of the skills, never the same id twice.
   */
  lemma {:induction false} SkillStageFacts(store: seq<Block>, skills: seq<string>, seen: set<nat>)
    ensures var r := SkillStage(store, skills, seen);
      UniqueIds(r) && IdSet(r) !! seen &&
      (forall b :: b in r ==>
        b in store && b.id !in seen && (b.blockType == SupportingProject || b.blockType == PillarProject)) &&
      (forall b :: b in r ==> exists s :: s in skills && MatchesSkill(b, s))
    decreases |skills|
  {
    if skills != [] {
      match FirstMatch(SkillCandidates(store, seen), skills[0])
      case None =>
        SkillStageFacts(store, skills[1..], seen);
        var r := SkillStage(store, skills[1..], seen);
        forall b | b in r ensures exists s :: s in skills && MatchesSkill(b, s) {
          var s :| s in skills[1..] && MatchesSkill(b, s);
          assert s in skills;
        }
      case Some(b) =>
        var rest := SkillStage(store, skills[1..], seen + {b.id});
        SkillStageFacts(store, skills[1..], seen + {b.id});
        IdSetConcat([b], rest);
        UniqueConcat([b], rest);
        var r := [b] + rest;
        assert r == SkillStage(store, skills, seen);
        forall x | x in r ensures exists s :: s in skills && MatchesSkill(x, s) {
          if x == b {
            assert skills[0] in skills;
          } else {
            assert x in rest;
            var s :| s in skills[1..] && MatchesSkill(x, s);
            assert s in skills;
          }
        }
    }
  }

  /** Stage 4's candidates: not-yet-selected supporting projects, in store order. */
  function VectorCandidates(store: seq<Block>, seen: set<nat>): (r: seq<Block>)
    ensures forall b :: b in r <==> b in store && b.id !in seen && b.blockType == SupportingProject
  {
    Filter(store, (b: Block) => b.id !in seen && b.blockType == SupportingProject)
  }

  /**
   * The order of `ORDER BY distance` ascending: a present key before a larger one,
   * and a missing key (a NULL embedding gives a NULL distance) after every present one.
   */
  predicate KeyLe(a: Option<real>, b: Option<real>) {
    b.None? || (a.Some? && a.value <= b.value)
  }

  /** The sort key of a block: its distance to the job embedding, or NULL without an embedding. */
  function Rank(job: Embedding, distance: (Embedding, Embedding) -> real): Block -> Option<real> {
    (b: Block) => if b.embedding.Some? then Some(distance(b.embedding.value, job)) else None
  }

  /** Index of the first candidate with the least key. */
  function ArgMin(c: seq<Block>, key: Block -> Option<real>): (m: nat)
    requires |c| > 0
    ensures m < |c|
    decreases |c|
  {
    if |c| == 1 then 0
    else
      var m' := ArgMin(c[1..], key);
      if KeyLe(key(c[0]), key(c[1..][m'])) then 0 else m' + 1
  }

  /** ArgMin picks a least key, and no earlier candidate has a key as small. */
  lemma {:induction false} ArgMinLeast(c: seq<Block>, key: Block -> Option<real>)
    requires |c| > 0
    ensures var m := ArgMin(c, key);
      (forall x :: x in c ==> KeyLe(key(c[m]), key(x))) &&
      (forall i :: 0 <= i < m ==> !KeyLe(key(c[i]), key(c[m])))
    decreases |c|
  {
    if |c| > 1 {
      ArgMinLeast(c[1..], key);
      assert forall x :: x in c <==> x == c[0] || x in c[1..];
      var m' := ArgMin(c[1..], key);
      if !KeyLe(key(c[0]), key(c[1..][m'])) {
        forall i | 0 <= i < m' + 1 ensures !KeyLe(key(c[i]), key(c[m' + 1])) {
          if i > 0 { assert c[i] == c[1..][i - 1]; }
        }
      }
    }
  }

  /** c without its element at index m. */
  function RemoveAt(c: seq<Block>, m: nat): (r: seq<Block>)
    requires m < |c|
    ensures |r| == |c| - 1
    ensures forall x :: x in r ==> x in c
  {
    c[..m] + c[m + 1..]
  }

  /**
   * `.order_by(distance).limit(k)`: the k candidates of least key, nearest first; candidates
   * with equal keys keep their store order.
   */
  function NearestK(c: seq<Block>, key: Block -> Option<real>, k: nat): (r: seq<Block>)
    ensures |r| == if k < |c| then k else |c|
    ensures forall x :: x in r ==> x in c
    decreases k
  {
    if k == 0 || c == [] then []
    else
      var m := ArgMin(c, key);
      [c[m]] + NearestK(RemoveAt(c, m), key, k - 1)
  }

  /** The chosen blocks come in non-decreasing key order. */
  lemma NearestKSorted(c: seq<Block>, key: Block -> Option<real>, k: nat)
    ensures var r := NearestK(c, key, k);
      forall i, j :: 0 <= i < j < |r| ==> KeyLe(key(r[i]), key(r[j]))
  {
    forall i, j | 0 <= i < j < |NearestK(c, key, k)|
      ensures KeyLe(key(NearestK(c, key, k)[i]), key(NearestK(c, key, k)[j]))
    {
      NearestKSortedPair(c, key, k, i, j);
    }
  }

  lemma {:induction false} NearestKSortedPair(c: seq<Block>, key: Block -> Option<real>, k: nat, i: nat, j: nat)
    requires i < j < |NearestK(c, key, k)|
    ensures KeyLe(key(NearestK(c, key, k)[i]), key(NearestK(c, key, k)[j]))
    decreases k
  {
    var r := NearestK(c, key, k);
    assert k > 0 && c != [];
    var m := ArgMin(c, key);
    var rest := RemoveAt(c, m);
    var tail := NearestK(rest, key, k - 1);
    NearestKStep(c, key, k);
    assert |r| == |tail| + 1 && r[j] == tail[j - 1];
    if i == 0 {
      HeadLeast(c, key, k, tail[j - 1]);
      assert r[i] == c[m];
    } else {
      NearestKSortedPair(rest, key, k - 1, i - 1, j - 1);
      assert r[i] == tail[i - 1];
    }
  }

  /** One step of NearestK: the least candidate, then the nearest k - 1 of the others. */
  lemma NearestKStep(c: seq<Block>, key: Block -> Option<real>, k: nat)
    requires k > 0 && c != []
    ensures var m := ArgMin(c, key);
      var r := NearestK(c, key, k);
      var tail := NearestK(RemoveAt(c, m), key, k - 1);
      r == [c[m]] + tail && r[0] == c[m] && (forall i :: 0 < i < |r| ==> r[i] == tail[i - 1])
  {
  }

  /** The first chosen candidate is no farther than any later one. */
  lemma HeadLeast(c: seq<Block>, key: Block -> Option<real>, k: nat, y: Block)
    requires k > 0 && c != []
    requires y in NearestK(RemoveAt(c, ArgMin(c, key)), key, k - 1)
    ensures KeyLe(key(c[ArgMin(c, key)]), key(y))
  {
    assert y in RemoveAt(c, ArgMin(c, key));
    ArgMinLeast(c, key);
  }

  /** No candidate left out is nearer than a chosen one: the result is a top-k. */
  lemma NearestKTop(c: seq<Block>, key: Block -> Option<real>, k: nat)
    ensures var r := NearestK(c, key, k);
      forall x, y :: x in c && x !in r && y in r ==> KeyLe(key(y), key(x))
  {
    forall x, y | x in c && x !in NearestK(c, key, k) && y in NearestK(c, key, k)
      ensures KeyLe(key(y), key(x))
    {
      NearestKTopPair(c, key, k, x, y);
    }
  }

  lemma {:induction false} NearestKTopPair(c: seq<Block>, key: Block -> Option<real>, k: nat, x: Block, y: Block)
    requires x in c && x !in NearestK(c, key, k) && y in NearestK(c, key, k)
    ensures KeyLe(key(y), key(x))
    decreases k
  {
    var r := NearestK(c, key, k);
    assert k > 0 && c != [];
    var m := ArgMin(c, key);
    var rest := RemoveAt(c, m);
    var tail := NearestK(rest, key, k - 1);
    NearestKStep(c, key, k);
    if y != c[m] {
      assert y in tail && x != c[m] && x !in tail;
      InRemoveAt(c, m, x);
      NearestKTopPair(rest, key, k - 1, x, y);
    } else {
      ArgMinLeast(c, key);
    }
  }

  lemma InRemoveAt(c: seq<Block>, m: nat, x: Block)
    requires m < |c| && x in c && x != c[m]
    ensures x in RemoveAt(c, m)
  {
    var ix :| 0 <= ix < |c| && c[ix] == x;
    if ix < m { assert RemoveAt(c, m)[ix] == x; } else { assert RemoveAt(c, m)[ix - 1] == x; }
  }

  /** Removing one element of a table with unique ids keeps them unique and drops that id. */
  lemma RemoveAtUnique(c: seq<Block>, m: nat)
    requires m < |c| && UniqueIds(c)
    ensures UniqueIds(RemoveAt(c, m)) && c[m].id !in IdSet(RemoveAt(c, m))
  {
    var r := RemoveAt(c, m);
    forall i, j | 0 <= i < j < |r| ensures r[i].id != r[j].id {
      var ci := if i < m then i else i + 1;
      var cj := if j < m then j else j + 1;
      assert r[i] == c[ci] && r[j] == c[cj] && ci < cj;
    }
    forall x | x in r ensures x.id != c[m].id {
      var i :| 0 <= i < |r| && r[i] == x;
      if i < m { assert r[i] == c[i]; } else { assert r[i] == c[i + 1]; }
    }
  }

  /** Over candidates with unique ids, the chosen blocks have unique ids. */
  lemma {:induction false} NearestKUnique(c: seq<Block>, key: Block -> Option<real>, k: nat)
    requires UniqueIds(c)
    ensures UniqueIds(NearestK(c, key, k))
  {
    if k > 0 && c != [] {
      var m := ArgMin(c, key);
      var rest := RemoveAt(c, m);
      RemoveAtUnique(c, m);
      NearestKUnique(rest, key, k - 1);
      var tail := NearestK(rest, key, k - 1);
      assert IdSet([c[m]]) !! IdSet(tail) by {
        forall x | x in tail ensures x.id != c[m].id { assert x in rest; }
      }
      UniqueConcat([c[m]], tail);
    }
  }

  /** A found block that is not yet selected, as the zero-or-one blocks a stage appends. */
  function Unseen(o: Option<Block>, seen: set<nat>): (r: seq<Block>)
    ensures |r| <= 1
    ensures r != [] <==> o.Some? && o.value.id !in seen
    ensures r != [] ==> r[0] == o.value
  {
    if o.Some? && o.value.id !in seen then [o.value] else []
  }

  /** Stages 1 and 2: every pillar project, then the first skills summary. */
  function Mandatory(store: seq<Block>): seq<Block> {
    OfType(store, PillarProject) + OptionToSeq(FirstOfType(store, SkillsSummary))
  }

  /** Stage 3 as run after stages 1 and 2. */
  function SkillMatched(store: seq<Block>, skills: seq<string>): seq<Block> {
    SkillStage(store, skills, IdSet(Mandatory(store)))
  }

  /** Stage 4 as run after stages 1 to 3: the three nearest unseen supporting projects. */
  function Nearest(store: seq<Block>, skills: seq<string>, job: Embedding,
                   distance: (Embedding, Embedding) -> real): seq<Block> {
    var seen := IdSet(Mandatory(store) + SkillMatched(store, skills));
    NearestK(VectorCandidates(store, seen), Rank(job, distance), 3)
  }

  /** What stages 1 to 4 select. */
  function Front(store: seq<Block>, skills: seq<string>, job: Embedding,
                 distance: (Embedding, Embedding) -> real): seq<Block> {
    Mandatory(store) + SkillMatched(store, skills) + Nearest(store, skills, job, distance)
  }

  /** The whole selection: the six stages in order, each skipping ids chosen before it. */
  function Selected(store: seq<Block>, skills: seq<string>, job: Embedding,
                     distance: (Embedding, Embedding) -> real): seq<Block> {
    var front := Front(store, skills, job, distance);
    var employment := Unseen(LatestOfType(store, Employment), IdSet(front));
    front + employment + Unseen(FirstOfType(store, Education), IdSet(front + employment))
  }

  /**
   * select_relevant_blocks, step by step as the source runs it: a result list and a
   * set of selected ids, extended stage by stage (each numbered stage is a method below).
   */
  method SelectRelevantBlocks(store: seq<Block>, jobSkills: seq<string>, jobEmbedding: Embedding,
                              distance: (Embedding, Embedding) -> real)
    returns (selectedBlocks: seq<Block>)
    ensures selectedBlocks == Selected(store, jobSkills, jobEmbedding, distance)
  {
    var selectedIds;
    // 1 and 2
    selectedBlocks, selectedIds := AddMandatory(store);
    // 3
    var skillMatchedBlocks;
    skillMatchedBlocks, selectedIds := MatchSkills(store, jobSkills, selectedIds);
    IdSetConcat(selectedBlocks, skillMatchedBlocks);
    selectedBlocks := selectedBlocks + skillMatchedBlocks;
    // 4
    var vectorBlocks;
    vectorBlocks, selectedIds := AddNearest(store, selectedIds, Rank(jobEmbedding, distance));
    IdSetConcat(selectedBlocks, vectorBlocks);
    selectedBlocks := selectedBlocks + vectorBlocks;
    // 5 and 6
    selectedBlocks := AddEmploymentAndEducation(store, selectedBlocks, selectedIds);
  }

  /** Stages 1 and 2: append every pillar project, then the first skills summary. */
  method AddMandatory(store: seq<Block>) returns (selectedBlocks: seq<Block>, selectedIds: set<nat>)
    ensures selectedBlocks == Mandatory(store)
    ensures selectedIds == IdSet(selectedBlocks)
  {
    selectedBlocks, selectedIds := [], {};
    var pillarBlocks := OfType(store, PillarProject);
    for k := 0 to |pillarBlocks|
      invariant selectedBlocks == pillarBlocks[..k]
      invariant selectedIds == IdSet(selectedBlocks)
    {
      TakeSnoc(pillarBlocks, k);
      IdSetSnoc(pillarBlocks, k);
      selectedBlocks := selectedBlocks + [pillarBlocks[k]];
      selectedIds := selectedIds + {pillarBlocks[k].id};
    }
    TakeAll(pillarBlocks);
    var skillsSummary := FirstOfType(store, SkillsSummary);
    if skillsSummary.Some? {
      IdSetConcat(selectedBlocks, [skillsSummary.value]);
      selectedBlocks := selectedBlocks + [skillsSummary.value];
      selectedIds := selectedIds + {skillsSummary.value.id};
    }
  }

  /** Stage 3: for each skill, the first unseen candidate whose tags match it. */
  method MatchSkills(store: seq<Block>, jobSkills: seq<string>, seen: set<nat>)
    returns (skillMatchedBlocks: seq<Block>, selectedIds: set<nat>)
    ensures skillMatchedBlocks == SkillStage(store, jobSkills, seen)
    ensures selectedIds == seen + IdSet(skillMatchedBlocks)
  {
    skillMatchedBlocks, selectedIds := [], seen;
    for i := 0 to |jobSkills|
      invariant selectedIds == seen + IdSet(skillMatchedBlocks)
      invariant skillMatchedBlocks + SkillStage(store, jobSkills[i..], selectedIds)
                == SkillStage(store, jobSkills, seen)
    {
      var matchingBlocks := SkillCandidates(store, selectedIds);
      var found := ScanForSkill(matchingBlocks, jobSkills[i], selectedIds);
      SkillStageUnfold(store, jobSkills, i, selectedIds);
      if found.Some? {
        var block := found.value;
        IdSetAppend(skillMatchedBlocks, block);
        ConcatAssoc(skillMatchedBlocks, [block], SkillStage(store, jobSkills[i + 1..], selectedIds + {block.id}));
        skillMatchedBlocks := skillMatchedBlocks + [block];
        selectedIds := selectedIds + {block.id};
      }
    }
    SkillStageDone(store, jobSkills, selectedIds);
  }

  lemma SkillStageDone(store: seq<Block>, skills: seq<string>, seen: set<nat>)
    ensures SkillStage(store, skills[|skills|..], seen) == []
  {
    assert skills[|skills|..] == [];
  }

  /** One step of stage 3, at the skill with index i. */
  lemma SkillStageUnfold(store: seq<Block>, skills: seq<string>, i: nat, seen: set<nat>)
    requires i < |skills|
    ensures SkillStage(store, skills[i..], seen) ==
      match FirstMatch(SkillCandidates(store, seen), skills[i])
      case None => SkillStage(store, skills[i + 1..], seen)
      case Some(b) => [b] + SkillStage(store, skills[i + 1..], seen + {b.id})
  {
    assert skills[i..][0] == skills[i] && skills[i..][1..] == skills[i + 1..];
  }

  /**
   * The inner loop of stage 3: the first block of the query result whose tags match the
   * skill and whose id is not selected yet, leaving the loop at once (`break`). The query
   * already excludes selected ids, so this is the first match.
   */
  method ScanForSkill(matchingBlocks: seq<Block>, skill: string, selectedIds: set<nat>)
    returns (found: Option<Block>)
    requires forall b :: b in matchingBlocks ==> b.id !in selectedIds
    ensures found == FirstMatch(matchingBlocks, skill)
    ensures found.Some? ==> exists i :: 0 <= i < |matchingBlocks| && matchingBlocks[i] == found.value &&
                                        forall k :: 0 <= k < i ==> !MatchesSkill(matchingBlocks[k], skill)
  {
    found := None;
    var j := 0;
    while j < |matchingBlocks|
      invariant 0 <= j <= |matchingBlocks|
      invariant FirstMatch(matchingBlocks[j..], skill) == FirstMatch(matchingBlocks, skill)
      invariant forall k :: 0 <= k < j ==> !MatchesSkill(matchingBlocks[k], skill)
    {
      var block := matchingBlocks[j];
      assert matchingBlocks[j..][0] == block && matchingBlocks[j..][1..] == matchingBlocks[j + 1..];
      if MatchesSkill(block, skill) {
        if block.id !in selectedIds {
          found := Some(block);
          break;
        }
      }
      j := j + 1;
    }
    if found.None? {
      assert matchingBlocks[j..] == [];
    }
  }

  /** Stage 4: append the three nearest unseen supporting projects and record their ids. */
  method AddNearest(store: seq<Block>, seen: set<nat>, key: Block -> Option<real>)
    returns (vectorBlocks: seq<Block>, selectedIds: set<nat>)
    ensures vectorBlocks == NearestK(VectorCandidates(store, seen), key, 3)
    ensures selectedIds == seen + IdSet(vectorBlocks)
  {
    vectorBlocks := NearestK(VectorCandidates(store, seen), key, 3);
    selectedIds := seen;
    for k := 0 to |vectorBlocks|
      invariant selectedIds == seen + IdSet(vectorBlocks[..k])
    {
      IdSetSnoc(vectorBlocks, k);
      selectedIds := selectedIds + {vectorBlocks[k].id};
    }
    TakeAll(vectorBlocks);
  }

  /** Stages 5 and 6: append the latest employment, then the first education, unless already selected. */
  method AddEmploymentAndEducation(store: seq<Block>, front: seq<Block>, selectedIds: set<nat>)
    returns (selectedBlocks: seq<Block>)
    requires selectedIds == IdSet(front)
    ensures var employment := Unseen(LatestOfType(store, Employment), IdSet(front));
      selectedBlocks == front + employment + Unseen(FirstOfType(store, Education), IdSet(front + employment))
  {
    selectedBlocks := front;
    var ids := selectedIds;
    var employment := LatestOfType(store, Employment);
    if employment.Some? && employment.value.id !in ids {
      IdSetConcat(selectedBlocks, [employment.value]);
      selectedBlocks := selectedBlocks + [employment.value];
      ids := ids + {employment.value.id};
    }
    var education := FirstOfType(store, Education);
    if education.Some? && education.value.id !in ids {
      selectedBlocks := selectedBlocks + [education.value];
    }
  }

  // ---------------------------------------------------------------------------
  // What the selection promises

  lemma PrefixChain(p: seq<Block>, q: seq<Block>, s: seq<Block>)
    requires |p| <= |q| <= |s| && q == s[..|q|] && p == q[..|p|]
    ensures p == s[..|p|]
    ensures forall i :: 0 <= i < |q| ==> s[i] == q[i]
  {
  }

  lemma SelectedPrefix(store: seq<Block>, skills: seq<string>, job: Embedding,
                       distance: (Embedding, Embedding) -> real)
    ensures var front := Front(store, skills, job, distance);
      var mandatory := Mandatory(store);
      var r := Selected(store, skills, job, distance);
      |mandatory| <= |front| <= |r| && front == r[..|front|] && mandatory == front[..|mandatory|]
  {
    var mandatory, matched, nearest := Mandatory(store), SkillMatched(store, skills), Nearest(store, skills, job, distance);
    ConcatAssoc(mandatory, matched, nearest);
    ConcatPrefix(mandatory, matched + nearest);
    var front := Front(store, skills, job, distance);
    var employment := Unseen(LatestOfType(store, Employment), IdSet(front));
    var education := Unseen(FirstOfType(store, Education), IdSet(front + employment));
    ConcatAssoc(front, employment, education);
    ConcatPrefix(front, employment + education);
  }

  /** Every pillar project comes first, in store order. */
  lemma PillarsFirst(store: seq<Block>, skills: seq<string>, job: Embedding,
                     distance: (Embedding, Embedding) -> real)
    ensures var r := Selected(store, skills, job, distance);
      var pillars := OfType(store, PillarProject);
      |pillars| <= |r| && r[..|pillars|] == pillars &&
      (forall b :: b in store && b.blockType == PillarProject ==> b in r)
  {
    var r := Selected(store, skills, job, distance);
    var pillars := OfType(store, PillarProject);
    MandatoryLeads(store, skills, job, distance);
    PrefixChain(pillars, Mandatory(store), r);
    PrefixMembers(pillars, r);
  }

  /** The first skills summary, if any, comes right after the pillar projects. */
  lemma SummaryFollowsPillars(store: seq<Block>, skills: seq<string>, job: Embedding,
                              distance: (Embedding, Embedding) -> real)
    ensures var r := Selected(store, skills, job, distance);
      var pillars := OfType(store, PillarProject);
      var summary := FirstOfType(store, SkillsSummary);
      summary.Some? ==> |pillars| < |r| && r[|pillars|] == summary.value
  {
    var r := Selected(store, skills, job, distance);
    var mandatory := Mandatory(store);
    MandatoryLeads(store, skills, job, distance);
    assert forall i :: 0 <= i < |mandatory| ==> r[i] == mandatory[i];
  }

  /** The selection starts with stages 1 and 2. */
  lemma MandatoryLeads(store: seq<Block>, skills: seq<string>, job: Embedding,
                       distance: (Embedding, Embedding) -> real)
    ensures var r := Selected(store, skills, job, distance);
      var mandatory := Mandatory(store);
      |mandatory| <= |r| && r[..|mandatory|] == mandatory &&
      (forall i :: 0 <= i < |mandatory| ==> r[i] == mandatory[i]) &&
      OfType(store, PillarProject) == mandatory[..|OfType(store, PillarProject)|]
  {
    var r := Selected(store, skills, job, distance);
    var front := Front(store, skills, job, distance);
    var mandatory := Mandatory(store);
    SelectedPrefix(store, skills, job, distance);
    PrefixChain(mandatory, front, r);
    ConcatPrefix(OfType(store, PillarProject), OptionToSeq(FirstOfType(store, SkillsSummary)));
  }

  /** Over a table with unique ids, no block id appears twice in the selection. */
  lemma SelectionUnique(store: seq<Block>, skills: seq<string>, job: Embedding,
                        distance: (Embedding, Embedding) -> real)
    requires UniqueIds(store)
    ensures UniqueIds(Selected(store, skills, job, distance))
  {
    var pillars := OfType(store, PillarProject);
    var summary := OptionToSeq(FirstOfType(store, SkillsSummary));
    FilterUnique(store, (b: Block) => b.blockType == PillarProject);
    assert IdSet(pillars) !! IdSet(summary);
    UniqueConcat(pillars, summary);
    var mandatory := Mandatory(store);
    var matched := SkillMatched(store, skills);
    SkillStageFacts(store, skills, IdSet(mandatory));
    UniqueConcat(mandatory, matched);
    var seen := IdSet(mandatory + matched);
    FilterUnique(store, (b: Block) => b.id !in seen && b.blockType == SupportingProject);
    NearestKUnique(VectorCandidates(store, seen), Rank(job, distance), 3);
    var nearest := Nearest(store, skills, job, distance);
    assert IdSet(mandatory + matched) !! IdSet(nearest);
    UniqueConcat(mandatory + matched, nearest);
    var front := Front(store, skills, job, distance);
    var employment := Unseen(LatestOfType(store, Employment), IdSet(front));
    UniqueConcat(front, employment);
    var education := Unseen(FirstOfType(store, Education), IdSet(front + employment));
    UniqueConcat(front + employment, education);
  }

  /**
   * Stage 3 adds at most one block per skill, each an unseen supporting project (pillars
   * are all seen already) whose tags match one of the skills.
   */
  lemma SkillStageBounded(store: seq<Block>, skills: seq<string>)
    ensures var m := SkillMatched(store, skills);
      |m| <= |skills| &&
      (forall b :: b in m ==> b.blockType == SupportingProject && b.id !in IdSet(Mandatory(store))) &&
      (forall b :: b in m ==> exists s :: s in skills && MatchesSkill(b, s))
  {
    SkillStageFacts(store, skills, IdSet(Mandatory(store)));
  }

  /**
   * Stage 4 adds at most three unseen supporting projects, nearest first, and no
   * unseen supporting project it leaves out is nearer than one it adds.
   */
  lemma NearestStage(store: seq<Block>, skills: seq<string>, job: Embedding,
                     distance: (Embedding, Embedding) -> real)
    ensures var seen := IdSet(Mandatory(store) + SkillMatched(store, skills));
      var v := Nearest(store, skills, job, distance);
      var key := Rank(job, distance);
      |v| <= 3 &&
      (forall b :: b in v ==> b in store && b.blockType == SupportingProject && b.id !in seen) &&
      (forall i, j :: 0 <= i < j < |v| ==> KeyLe(key(v[i]), key(v[j]))) &&
      (forall x, y :: x in store && x.blockType == SupportingProject && x.id !in seen && x !in v && y in v
         ==> KeyLe(key(y), key(x)))
  {
    var seen := IdSet(Mandatory(store) + SkillMatched(store, skills));
    NearestKSorted(VectorCandidates(store, seen), Rank(job, distance), 3);
    NearestKTop(VectorCandidates(store, seen), Rank(job, distance), 3);
  }

  /** Over a table with unique ids, the latest employment always makes it in. */
  lemma EmploymentIncluded(store: seq<Block>, skills: seq<string>, job: Embedding,
                           distance: (Embedding, Embedding) -> real)
    requires UniqueIds(store)
    ensures var latest := LatestOfType(store, Employment);
      latest.Some? ==> latest.value in Selected(store, skills, job, distance)
  {
    var front := Front(store, skills, job, distance);
    var latest := LatestOfType(store, Employment);
    if latest.Some? {
      FrontHasNoEmploymentOrEducation(store, skills, job, distance);
      forall b | b in front ensures b.id != latest.value.id {
        DistinctBlocksDistinctIds(store, b, latest.value);
      }
    }
  }

  /** Over a table with unique ids, the first education block always makes it in. */
  lemma EducationIncluded(store: seq<Block>, skills: seq<string>, job: Embedding,
                          distance: (Embedding, Embedding) -> real)
    requires UniqueIds(store)
    ensures var first := FirstOfType(store, Education);
      first.Some? ==> first.value in Selected(store, skills, job, distance)
  {
    var front := Front(store, skills, job, distance);
    var employment := Unseen(LatestOfType(store, Employment), IdSet(front));
    var first := FirstOfType(store, Education);
    if first.Some? {
      FrontHasNoEmploymentOrEducation(store, skills, job, distance);
      forall b: Block | b in front + employment ensures b.id != first.value.id {
        DistinctBlocksDistinctIds(store, b, first.value);
      }
    }
  }

  /** Stages 1 to 4 only pick stored pillars, summaries and projects. */
  lemma FrontHasNoEmploymentOrEducation(store: seq<Block>, skills: seq<string>, job: Embedding,
                                        distance: (Embedding, Embedding) -> real)
    ensures forall b :: b in Front(store, skills, job, distance) ==>
      b in store && b.blockType != Employment && b.blockType != Education
  {
    SkillStageFacts(store, skills, IdSet(Mandatory(store)));
  }

  /** The size bound: all pillars, then at most 1 + |skills| + 3 + 1 + 1 further blocks. */
  lemma SelectionBounded(store: seq<Block>, skills: seq<string>, job: Embedding,
                         distance: (Embedding, Embedding) -> real)
    ensures |Selected(store, skills, job, distance)| <= |OfType(store, PillarProject)| + 1 + |skills| + 3 + 1 + 1
  {
  }

  lemma {:induction false} SkillStageEmptyStore(skills: seq<string>, seen: set<nat>)
    ensures SkillStage([], skills, seen) == []
    decreases |skills|
  {
    if skills != [] {
      SkillStageEmptyStore(skills[1..], seen);
    }
  }

  /** An empty table yields an empty selection, whatever the skills. */
  lemma EmptyStoreEmptySelection(skills: seq<string>, job: Embedding, distance: (Embedding, Embedding) -> real)
    ensures Selected([], skills, job, distance) == []
  {
    SkillStageEmptyStore(skills, IdSet(Mandatory([])));
  }
}
