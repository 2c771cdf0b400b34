/**
 * The tables of the CV store: experience blocks, the personal-info singleton and
 * job applications, with the two closed enumerations and the column defaults.
 */
module Models {
  import opened Wrappers

  /** Every stored embedding is a vector of this many entries (the Vector(1024) column). */
  const EmbeddingDim: nat := 1024

  type Embedding = v: seq<real> | |v| == EmbeddingDim witness seq(EmbeddingDim, _ => 0.0)

  datatype ApplicationStatus = Draft | Applied | Interviewing | Rejected | Offer | Accepted

  /** The stored value of each application status. */
  function StatusValue(s: ApplicationStatus): (r: string)
    ensures ParseStatus(r) == Some(s)
  {
    match s
    case Draft => "draft"
    case Applied => "applied"
    case Interviewing => "interviewing"
    case Rejected => "rejected"
    case Offer => "offer"
    case Accepted => "accepted"
  }

  /** ApplicationStatus(value): the status whose value is s, if any. */
  function ParseStatus(s: string): (r: Option<ApplicationStatus>)
  {
    if s == "draft" then Some(Draft)
    else if s == "applied" then Some(Applied)
    else if s == "interviewing" then Some(Interviewing)
    else if s == "rejected" then Some(Rejected)
    else if s == "offer" then Some(Offer)
    else if s == "accepted" then Some(Accepted)
    else None
  }

  /** The six statuses in declaration order. */
  const AllStatuses: seq<ApplicationStatus> := [Draft, Applied, Interviewing, Rejected, Offer, Accepted]

  datatype BlockType = PillarProject | SupportingProject | Employment | Education | SkillsSummary

  /** The stored value of each block type. */
  function BlockTypeValue(t: BlockType): (r: string)
    ensures ParseBlockType(r) == Some(t)
  {
    match t
    case PillarProject => "pillar_project"
    case SupportingProject => "supporting_project"
    case Employment => "employment"
    case Education => "education"
    case SkillsSummary => "skills_summary"
  }

  /** BlockType(value): the block type whose value is s; None where Python raises ValueError. */
  function ParseBlockType(s: string): (r: Option<BlockType>)
  {
    if s == "pillar_project" then Some(PillarProject)
    else if s == "supporting_project" then Some(SupportingProject)
    else if s == "employment" then Some(Employment)
    else if s == "education" then Some(Education)
    else if s == "skills_summary" then Some(SkillsSummary)
    else None
  }

  /** The five block types in declaration order, the order `for block_type in BlockType` visits. */
  const AllBlockTypes: seq<BlockType> := [PillarProject, SupportingProject, Employment, Education, SkillsSummary]

  /** The enumerations are closed: a value parses exactly when it is the value of a declared member. */
  lemma EnumerationsClosed(s: string)
    ensures ParseBlockType(s).Some? <==> exists t :: t in AllBlockTypes && BlockTypeValue(t) == s
    ensures ParseStatus(s).Some? <==> exists a :: a in AllStatuses && StatusValue(a) == s
    ensures |AllBlockTypes| == 5 && |AllStatuses| == 6
  {
    if ParseBlockType(s).Some? {
      var t := ParseBlockType(s).value;
      assert t in AllBlockTypes && BlockTypeValue(t) == s;
    }
    if ParseStatus(s).Some? {
      var a := ParseStatus(s).value;
      assert a in AllStatuses && StatusValue(a) == s;
    }
  }

  /** A row of experience_blocks. The UUID primary key is a natural number here. */
  datatype Block = Block(
    id: nat,
    title: string,
    company: Option<string>,
    content: string,
    tags: Option<seq<string>>,
    blockType: BlockType,
    priority: Option<string>,
    embedding: Option<Embedding>,
    createdAt: int)

  /** Column defaults of a block inserted with only its required columns set. */
  function DefaultBlock(id: nat, title: string, content: string, createdAt: int): (b: Block)
    ensures b.blockType == SupportingProject && b.priority == Some("3")
    ensures b.id == id && b.title == title && b.content == content && b.createdAt == createdAt
    ensures b.company.None? && b.tags.None? && b.embedding.None?
  {
    Block(id, title, None, content, None, SupportingProject, Some("3"), None, createdAt)
  }

  /**
   * The priority an INSERT stores. The ORM leaves a None attribute out of the INSERT
   * when its column has a default, so a null priority is stored as the default "3";
   * an UPDATE, by contrast, writes NULL.
   */
  function InsertedPriority(p: Option<string>): (r: Option<string>)
    ensures r.Some?
    ensures p.Some? ==> r == p
    ensures p.None? ==> r == DefaultBlock(0, "", "", 0).priority
  {
    if p.None? then Some("3") else p
  }

  /** The nullable profile columns of personal_info (name is NOT NULL). */
  datatype Profile = Profile(
    name: string,
    email: Option<string>,
    phone: Option<string>,
    location: Option<string>,
    linkedin: Option<string>,
    github: Option<string>,
    portfolio: Option<string>,
    summary: Option<string>)

  datatype PersonalInfo = PersonalInfo(id: nat, profile: Profile)

  datatype JobApplication = JobApplication(
    id: nat,
    companyName: string,
    jobTitle: string,
    rawSpec: string,
    generatedCv: Option<string>,
    generatedCoverLetter: Option<string>,
    skillsGapReport: Option<string>,
    status: ApplicationStatus,
    appliedDate: Option<int>,
    notes: Option<string>,
    jobUrl: Option<string>)

  /** Column defaults of an application inserted without a status, date or notes. */
  function DefaultApplication(id: nat, companyName: string, jobTitle: string, rawSpec: string): (a: JobApplication)
    ensures a.status == Draft
    ensures a.id == id && a.companyName == companyName && a.jobTitle == jobTitle && a.rawSpec == rawSpec
    ensures a.appliedDate.None? && a.notes.None? && a.generatedCv.None? && a.generatedCoverLetter.None?
  {
    JobApplication(id, companyName, jobTitle, rawSpec, None, None, None, Draft, None, None, None)
  }

  /** The primary-key invariant: no two rows share an id. */
  predicate UniqueIds(s: seq<Block>) {
    forall i, j :: 0 <= i < j < |s| ==> s[i].id != s[j].id
  }

  /** The ids of a sequence of blocks. */
  function IdSet(s: seq<Block>): set<nat> {
    set b | b in s :: b.id
  }

  lemma IdSetConcat(a: seq<Block>, b: seq<Block>)
    ensures IdSet(a + b) == IdSet(a) + IdSet(b)
  {
    assert forall x :: x in a + b <==> x in a || x in b;
  }

  /** Appending one block adds its id. */
  lemma IdSetAppend(s: seq<Block>, b: Block)
    ensures IdSet(s + [b]) == IdSet(s) + {b.id}
  {
    IdSetConcat(s, [b]);
    assert IdSet([b]) == {b.id} by { assert forall x :: x in [b] <==> x == b; }
  }

  lemma TakeAll(s: seq<Block>)
    ensures s[..|s|] == s
  {
  }

  lemma TakeSnoc(s: seq<Block>, k: nat)
    requires k < |s|
    ensures s[..k + 1] == s[..k] + [s[k]]
  {
  }

  lemma ConcatPrefix(a: seq<Block>, b: seq<Block>)
    ensures |a| <= |a + b| && (a + b)[..|a|] == a
  {
  }

  lemma ConcatAssoc(a: seq<Block>, b: seq<Block>, c: seq<Block>)
    ensures a + b + c == a + (b + c)
  {
  }

  /** The elements of a prefix are elements of the whole. */
  lemma PrefixMembers(p: seq<Block>, s: seq<Block>)
    requires |p| <= |s| && s[..|p|] == p
    ensures forall b :: b in p ==> b in s
  {
    forall b | b in p ensures b in s {
      var i :| 0 <= i < |p| && p[i] == b;
      assert s[i] == b;
    }
  }

  /** Extending a prefix by one element adds that element's id. */
  lemma IdSetSnoc(s: seq<Block>, k: nat)
    requires k < |s|
    ensures IdSet(s[..k + 1]) == IdSet(s[..k]) + {s[k].id}
  {
    TakeSnoc(s, k);
    IdSetConcat(s[..k], [s[k]]);
  }

  /** Two different blocks of a store whose ids are unique have different ids. */
  lemma DistinctBlocksDistinctIds(s: seq<Block>, x: Block, y: Block)
    requires UniqueIds(s) && x in s && y in s && x != y
    ensures x.id != y.id
  {
    var i :| 0 <= i < |s| && s[i] == x;
    var j :| 0 <= j < |s| && s[j] == y;
    assert i != j;
  }

  /** Concatenation keeps ids unique when the two parts share no id. */
  lemma UniqueConcat(a: seq<Block>, b: seq<Block>)
    requires UniqueIds(a) && UniqueIds(b) && IdSet(a) !! IdSet(b)
    ensures UniqueIds(a + b)
  {
    forall i, j | 0 <= i < j < |a + b| ensures (a + b)[i].id != (a + b)[j].id {
      if j < |a| {
      } else if i >= |a| {
        assert (a + b)[i] == b[i - |a|] && (a + b)[j] == b[j - |a|];
      } else {
        assert (a + b)[i] == a[i] && a[i].id in IdSet(a);
        assert (a + b)[j] == b[j - |a|] && b[j - |a|].id in IdSet(b);
      }
    }
  }

  /** The rows of s that satisfy p, in the order of s: a filtered query without ORDER BY. */
  function Filter(s: seq<Block>, p: Block -> bool): (r: seq<Block>)
    ensures forall b :: b in r <==> b in s && p(b)
    ensures |r| <= |s|
  {
    if s == [] then [] else (if p(s[0]) then [s[0]] else []) + Filter(s[1..], p)
  }

  /** Filtering keeps the order of the rows: the result over a + b is the result over a, then over b. */
  lemma {:induction false} FilterConcat(a: seq<Block>, b: seq<Block>, p: Block -> bool)
    ensures Filter(a + b, p) == Filter(a, p) + Filter(b, p)
    decreases |a|
  {
    if a == [] {
      assert a + b == b;
    } else {
      assert (a + b)[0] == a[0] && (a + b)[1..] == a[1..] + b;
      FilterConcat(a[1..], b, p);
    }
  }

  /** The first row of a filtered query is the first row of the table that passes the filter. */
  lemma {:induction false} FilterFirst(s: seq<Block>, p: Block -> bool)
    ensures Filter(s, p) != [] ==>
      exists i :: 0 <= i < |s| && s[i] == Filter(s, p)[0] && p(s[i]) && forall j :: 0 <= j < i ==> !p(s[j])
    decreases |s|
  {
    if s == [] {
    } else if p(s[0]) {
      assert Filter(s, p) == [s[0]] + Filter(s[1..], p);
      assert Filter(s, p)[0] == s[0];
    } else {
      var rest := Filter(s[1..], p);
      assert Filter(s, p) == rest;
      FilterFirst(s[1..], p);
      if rest != [] {
        var i :| 0 <= i < |s[1..]| && s[1..][i] == rest[0] && p(s[1..][i]) &&
                 forall j :: 0 <= j < i ==> !p(s[1..][j]);
        FirstAfterHead(s, p, i);
      }
    }
  }

  lemma FirstAfterHead(s: seq<Block>, p: Block -> bool, i: nat)
    requires s != [] && !p(s[0]) && i < |s[1..]| && forall j :: 0 <= j < i ==> !p(s[1..][j])
    ensures s[i + 1] == s[1..][i] && forall j :: 0 <= j < i + 1 ==> !p(s[j])
  {
    forall j | 0 <= j < i + 1 ensures !p(s[j]) {
      if j > 0 { assert s[j] == s[1..][j - 1]; }
    }
  }

  /** A filtered query over a table with unique ids yields unique ids. */
  lemma {:induction false} FilterUnique(s: seq<Block>, p: Block -> bool)
    requires UniqueIds(s)
    ensures UniqueIds(Filter(s, p))
  {
    if s != [] {
      assert UniqueIds(s[1..]) by {
        forall i, j | 0 <= i < j < |s[1..]| ensures s[1..][i].id != s[1..][j].id {
          assert s[1..][i] == s[i + 1] && s[1..][j] == s[j + 1];
        }
      }
      FilterUnique(s[1..], p);
      var head := if p(s[0]) then [s[0]] else [];
      assert IdSet(head) !! IdSet(Filter(s[1..], p)) by {
        forall b | b in Filter(s[1..], p) ensures b.id != s[0].id {
          var k :| 0 <= k < |s[1..]| && s[1..][k] == b;
          assert s[k + 1] == b;
        }
      }
      UniqueConcat(head, Filter(s[1..], p));
    }
  }
}
