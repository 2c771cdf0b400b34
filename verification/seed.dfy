/**
 * Seeding the store from the personal data file: the personal-info upsert, the
 * title-keyed upsert of experience blocks inside one transaction, and the
 * per-type counts of the closing summary.
 *
 * The session does not flush before a query, so the title lookup of each entry
 * sees only the rows committed before the seeding began (updated in place as the
 * loop goes), never the blocks this same call has added.
 */
module Seed {
  import opened Wrappers
  import opened Text
  import opened Models
  import Store

  /** One entry of the data file's experience_blocks list. */
  datatype SeedItem = SeedItem(
    title: string,
    company: Option<string>,
    content: string,
    tags: seq<string>,
    blockType: string,
    priority: Option<string>)

  /** Why a seeding run is rolled back. */
  datatype SeedError =
    | UnknownBlockType(value: string)  // BlockType(value) raises ValueError
    | MissingName                      // personal_info.name is NOT NULL

  // ---------------------------------------------------------------------------
  // Personal info
  // ---------------------------------------------------------------------------

  /** The columns of personal_info a key of the data file can name. */
  datatype ProfileField = NameField | EmailField | PhoneField | LocationField
                        | LinkedinField | GithubField | PortfolioField | SummaryField

  /** The value a column holds, None for NULL. */
  function FieldValue(p: Profile, f: ProfileField): Option<string> {
    match f
    case NameField => Some(p.name)
    case EmailField => p.email
    case PhoneField => p.phone
    case LocationField => p.location
    case LinkedinField => p.linkedin
    case GithubField => p.github
    case PortfolioField => p.portfolio
    case SummaryField => p.summary
  }

  /** setattr(row, key, value): the named column takes the value and every other column keeps its own. */
  function WithField(p: Profile, f: ProfileField, v: string): (r: Profile)
    ensures FieldValue(r, f) == Some(v)
    ensures forall g :: g != f ==> FieldValue(r, g) == FieldValue(p, g)
  {
    match f
    case NameField => p.(name := v)
    case EmailField => p.(email := Some(v))
    case PhoneField => p.(phone := Some(v))
    case LocationField => p.(location := Some(v))
    case LinkedinField => p.(linkedin := Some(v))
    case GithubField => p.(github := Some(v))
    case PortfolioField => p.(portfolio := Some(v))
    case SummaryField => p.(summary := Some(v))
  }

  /** The data file's personal_info object: its key/value pairs in file order. */
  type PersonalData = seq<(ProfileField, string)>

  /** Setting every pair of data on p, in order. */
  function ApplyData(p: Profile, data: PersonalData): Profile
    decreases |data|
  {
    if data == [] then p
    else WithField(ApplyData(p, data[..|data| - 1]), data[|data| - 1].0, data[|data| - 1].1)
  }

  /** The value the last pair naming f carries, if any pair does. */
  function LastValue(data: PersonalData, f: ProfileField): (r: Option<string>)
    ensures r.None? <==> forall i :: 0 <= i < |data| ==> data[i].0 != f
    decreases |data|
  {
    if data == [] then None
    else if data[|data| - 1].0 == f then Some(data[|data| - 1].1)
    else LastValue(data[..|data| - 1], f)
  }

  /** Applying the data overwrites exactly the columns it names and keeps every other column. */
  lemma {:induction false} ApplyDataFieldwise(p: Profile, data: PersonalData, f: ProfileField)
    ensures FieldValue(ApplyData(p, data), f) == (if LastValue(data, f).Some? then LastValue(data, f) else FieldValue(p, f))
    decreases |data|
  {
    if data != [] {
      ApplyDataFieldwise(p, data[..|data| - 1], f);
    }
  }

  /** A row built from the data alone: PersonalInfo(**data), every unnamed column NULL. */
  const BlankProfile := Profile("", None, None, None, None, None, None, None)

  lemma ApplyDataTakeAll(data: PersonalData)
    ensures data[..|data|] == data
  {
  }

  lemma ApplyDataSnoc(p: Profile, data: PersonalData, i: nat)
    requires i < |data|
    ensures ApplyData(p, data[..i + 1]) == WithField(ApplyData(p, data[..i]), data[i].0, data[i].1)
  {
    assert data[..i + 1][..i] == data[..i];
  }

  /** `for key, value in data.items(): setattr(row, key, value)` */
  method SetAttributes(p: Profile, data: PersonalData) returns (r: Profile)
    ensures r == ApplyData(p, data)
  {
    r := p;
    for i := 0 to |data|
      invariant r == ApplyData(p, data[..i])
    {
      ApplyDataSnoc(p, data, i);
      r := WithField(r, data[i].0, data[i].1);
    }
    ApplyDataTakeAll(data);
  }

  /**
   * seed_personal_info followed by its commit: the existing row, if any, takes every
   * pair of the data in order; otherwise one row is inserted, which the NOT NULL
   * name column refuses (and the transaction rolls back) unless the data names it.
   */
  method SeedPersonalInfo(db: Store.Database, data: PersonalData) returns (r: Result<PersonalInfo, SeedError>)
    requires db.Valid()
    modifies db
    ensures db.Valid()
    ensures r.Err? <==> old(db.personal) == [] && LastValue(data, NameField).None?
    ensures r.Err? ==> r.error == MissingName && db.personal == old(db.personal) && db.nextId == old(db.nextId)
    ensures r.Ok? ==> |db.personal| == 1 && db.personal[0] == r.value
    ensures r.Ok? && old(db.personal) != [] ==>
              r.value == PersonalInfo(old(db.personal)[0].id, ApplyData(old(db.personal)[0].profile, data)) &&
              db.nextId == old(db.nextId)
    ensures r.Ok? && old(db.personal) == [] ==>
              r.value == PersonalInfo(old(db.nextId), ApplyData(BlankProfile, data)) && db.nextId == old(db.nextId) + 1
    ensures db.blocks == old(db.blocks) && db.applications == old(db.applications)
  {
    if db.personal != [] {
      var existing := db.personal[0];
      var profile := SetAttributes(existing.profile, data);
      var row := PersonalInfo(existing.id, profile);
      db.personal := [row];
      r := Ok(row);
    } else {
      if LastValue(data, NameField).None? {
        return Err(MissingName);
      }
      var row := PersonalInfo(db.nextId, ApplyData(BlankProfile, data));
      db.personal := [row];
      db.nextId := db.nextId + 1;
      r := Ok(row);
    }
  }

  // ---------------------------------------------------------------------------
  // Experience blocks
  // ---------------------------------------------------------------------------

  /** The text whose embedding is stored with a seeded block. */
  function CombinedText(item: SeedItem): string {
    item.title + " at " + ShowOptional(item.company) + ": " + item.content + " Keywords: " + Join(item.tags, ", ")
  }

  /** The embedding text mentions the title, the content and every tag of the entry. */
  lemma CombinedTextMentions(item: SeedItem)
    ensures Contains(CombinedText(item), item.title)
    ensures Contains(CombinedText(item), item.content)
    ensures forall t :: t in item.tags ==> Contains(CombinedText(item), t)
  {
    var rest := " at " + ShowOptional(item.company) + ": " + item.content + " Keywords: " + Join(item.tags, ", ");
    ContainsInfix("", item.title, rest);
    assert "" + item.title + rest == CombinedText(item);
    var pre := item.title + " at " + ShowOptional(item.company) + ": ";
    ContainsInfix(pre, item.content, " Keywords: " + Join(item.tags, ", "));
    assert pre + item.content + (" Keywords: " + Join(item.tags, ", ")) == CombinedText(item);
    forall t | t in item.tags ensures Contains(CombinedText(item), t) {
      JoinContains(item.tags, ", ", t);
      ContainsWithin(pre + item.content + " Keywords: ", Join(item.tags, ", "), "", t);
      assert pre + item.content + " Keywords: " + Join(item.tags, ", ") + "" == CombinedText(item);
    }
  }

  /** The existing block after an entry with the same title refreshed it. */
  function Refreshed(b: Block, item: SeedItem, t: BlockType, e: Embedding): Block {
    b.(content := item.content, tags := Some(item.tags), company := item.company,
       blockType := t, priority := item.priority, embedding := Some(e))
  }

  /** The block an entry with a new title adds; a null priority takes the column default. */
  function Inserted(id: nat, item: SeedItem, t: BlockType, e: Embedding, now: int): Block {
    Block(id, item.title, item.company, item.content, Some(item.tags), t, InsertedPriority(item.priority), Some(e), now)
  }

  /** `.filter(title == t).first()` over the committed rows: the first row titled t. */
  function FindTitle(rows: seq<Block>, title: string): (r: Option<nat>)
    ensures r.Some? ==> r.value < |rows| && rows[r.value].title == title
    ensures r.None? <==> forall j :: 0 <= j < |rows| ==> rows[j].title != title
  {
    if rows == [] then None
    else if rows[0].title == title then Some(0)
    else match FindTitle(rows[1..], title)
      case None => None
      case Some(k) => Some(k + 1)
  }

  /** The session while seeding: committed rows as updated in place, rows added but not flushed, the id counter. */
  datatype SeedState = SeedState(rows: seq<Block>, added: seq<Block>, nextId: nat)

  /** The session at the start of a seeding call over a committed table. */
  function Start(table: seq<Block>, nextId: nat): SeedState {
    SeedState(table, [], nextId)
  }

  /** The table the final commit writes. */
  function Table(s: SeedState): seq<Block> {
    s.rows + s.added
  }

  /** One iteration of seed_experience_blocks. */
  function SeedStep(s: SeedState, item: SeedItem, embed: string -> Embedding, now: int): Result<SeedState, SeedError> {
    match ParseBlockType(item.blockType)
    case None => Err(UnknownBlockType(item.blockType))
    case Some(t) =>
      var e := embed(CombinedText(item));
      match FindTitle(s.rows, item.title)
      case Some(k) => Ok(s.(rows := s.rows[k := Refreshed(s.rows[k], item, t, e)]))
      case None => Ok(s.(added := s.added + [Inserted(s.nextId, item, t, e, now)], nextId := s.nextId + 1))
  }

  /** The whole loop: the entries in order, stopping at the first error. */
  function Seeded(s: SeedState, items: seq<SeedItem>, embed: string -> Embedding, now: int): Result<SeedState, SeedError>
    decreases |items|
  {
    if items == [] then Ok(s)
    else match Seeded(s, items[..|items| - 1], embed, now)
      case Err(e) => Err(e)
      case Ok(t) => SeedStep(t, items[|items| - 1], embed, now)
  }

  lemma SeededSnoc(s: SeedState, items: seq<SeedItem>, i: nat, embed: string -> Embedding, now: int)
    requires i < |items|
    ensures Seeded(s, items[..i + 1], embed, now) ==
              match Seeded(s, items[..i], embed, now)
              case Err(e) => Err(e)
              case Ok(t) => SeedStep(t, items[i], embed, now)
  {
    assert items[..i + 1][..i] == items[..i];
  }

  lemma SeedItemsTakeAll(items: seq<SeedItem>)
    ensures items[..|items|] == items
  {
  }

  /** An entry whose title is committed refreshes the first such row in place: id, title and age kept, no row added. */
  lemma SeedStepUpdates(s: SeedState, item: SeedItem, embed: string -> Embedding, now: int, k: nat)
    requires ParseBlockType(item.blockType).Some? && FindTitle(s.rows, item.title) == Some(k)
    ensures var r := SeedStep(s, item, embed, now);
      r.Ok? && r.value.added == s.added && r.value.nextId == s.nextId && |r.value.rows| == |s.rows| &&
      (forall j :: 0 <= j < |s.rows| && j != k ==> r.value.rows[j] == s.rows[j]) &&
      var b := r.value.rows[k];
      b.id == s.rows[k].id && b.title == item.title && b.createdAt == s.rows[k].createdAt &&
      b.content == item.content && b.tags == Some(item.tags) && b.company == item.company &&
      Some(b.blockType) == ParseBlockType(item.blockType) && b.priority == item.priority &&
      b.embedding == Some(embed(CombinedText(item)))
  {
  }

  /** An entry whose title is not committed adds exactly one block carrying all its fields. */
  lemma SeedStepInserts(s: SeedState, item: SeedItem, embed: string -> Embedding, now: int)
    requires ParseBlockType(item.blockType).Some? && FindTitle(s.rows, item.title).None?
    ensures var r := SeedStep(s, item, embed, now);
      r.Ok? && r.value.rows == s.rows && |r.value.added| == |s.added| + 1 &&
      r.value.added[..|s.added|] == s.added && r.value.nextId == s.nextId + 1 &&
      var b := r.value.added[|s.added|];
      b.id == s.nextId && b.title == item.title && b.company == item.company && b.content == item.content &&
      b.tags == Some(item.tags) && Some(b.blockType) == ParseBlockType(item.blockType) &&
      b.priority == (if item.priority.None? then Some("3") else item.priority) &&
      b.embedding == Some(embed(CombinedText(item))) && b.createdAt == now
  {
    var r := SeedStep(s, item, embed, now);
    assert r.value.added == s.added + [r.value.added[|s.added|]];
  }

  /** Some entry names a block type that is not one of the five. */
  predicate HasUnknownType(items: seq<SeedItem>) {
    exists i :: 0 <= i < |items| && ParseBlockType(items[i].blockType).None?
  }

  lemma HasUnknownTypeSnoc(items: seq<SeedItem>)
    requires items != []
    ensures HasUnknownType(items) <==>
              HasUnknownType(items[..|items| - 1]) || ParseBlockType(items[|items| - 1].blockType).None?
  {
    var n := |items| - 1;
    if HasUnknownType(items[..n]) {
      var i :| 0 <= i < n && ParseBlockType(items[..n][i].blockType).None?;
      assert items[i] == items[..n][i];
    }
    if HasUnknownType(items) {
      var i :| 0 <= i < |items| && ParseBlockType(items[i].blockType).None?;
      if i < n {
        assert items[..n][i] == items[i];
      }
    }
  }

  /** The run fails exactly when some entry names an unknown block type. */
  lemma {:induction false} SeededFailsIff(s: SeedState, items: seq<SeedItem>, embed: string -> Embedding, now: int)
    ensures Seeded(s, items, embed, now).Err? <==> HasUnknownType(items)
    decreases |items|
  {
    if items != [] {
      SeededFailsIff(s, items[..|items| - 1], embed, now);
      HasUnknownTypeSnoc(items);
    }
  }

  /** The run stops at the first entry with an unknown block type and reports that type. */
  lemma {:induction false} SeededErrorAt(s: SeedState, items: seq<SeedItem>, i: nat, embed: string -> Embedding, now: int)
    requires i < |items| && Seeded(s, items[..i], embed, now).Ok?
    requires ParseBlockType(items[i].blockType).None?
    ensures Seeded(s, items, embed, now) == Err(UnknownBlockType(items[i].blockType))
    decreases |items|
  {
    SeededSnoc(s, items, i, embed, now);
    if |items| == i + 1 {
      SeedItemsTakeAll(items);
    } else {
      var m := |items| - 1;
      assert items[..m][..i] == items[..i] && items[..m][i] == items[i];
      SeededErrorAt(s, items[..m], i, embed, now);
    }
  }

  /** Two rows sequences agree on the key columns: same length, ids and titles position by position. */
  predicate SameKeys(a: seq<Block>, b: seq<Block>) {
    |a| == |b| && forall i :: 0 <= i < |a| ==> a[i].id == b[i].id && a[i].title == b[i].title
  }

  /** The titles a rows sequence holds. */
  function Titles(s: seq<Block>): set<string> {
    set b | b in s :: b.title
  }

  lemma TitlesConcat(a: seq<Block>, b: seq<Block>)
    ensures Titles(a + b) == Titles(a) + Titles(b)
  {
    assert forall x :: x in a + b <==> x in a || x in b;
  }

  /** Rows with the same keys hold the same titles. */
  lemma SameKeysTitles(a: seq<Block>, b: seq<Block>)
    requires SameKeys(a, b)
    ensures Titles(a) == Titles(b)
  {
    forall t | t in Titles(a) ensures t in Titles(b) {
      var x :| x in a && x.title == t;
      var j :| 0 <= j < |a| && a[j] == x;
      assert b[j] in b;
    }
    forall t | t in Titles(b) ensures t in Titles(a) {
      var x :| x in b && x.title == t;
      var j :| 0 <= j < |b| && b[j] == x;
      assert a[j] in a;
    }
  }

  /** A row titled t is found by the title lookup. */
  lemma FindTitleFinds(rows: seq<Block>, t: string)
    requires t in Titles(rows)
    ensures FindTitle(rows, t).Some?
  {
    var x :| x in rows && x.title == t;
    var j :| 0 <= j < |rows| && rows[j] == x;
  }

  /**
   * One entry keeps the keys of the committed rows, leaves its title in the table,
   * and either adds nothing or adds one block under the next id.
   */
  lemma SeedStepShape(t0: SeedState, item: SeedItem, embed: string -> Embedding, now: int)
    requires SeedStep(t0, item, embed, now).Ok?
    ensures var s := SeedStep(t0, item, embed, now).value;
      SameKeys(s.rows, t0.rows) && item.title in Titles(Table(s)) &&
      ((s.added == t0.added && s.nextId == t0.nextId) ||
       (|s.added| == |t0.added| + 1 && s.added == t0.added + [s.added[|t0.added|]] &&
        s.added[|t0.added|].id == t0.nextId && s.nextId == t0.nextId + 1))
  {
    var s := SeedStep(t0, item, embed, now).value;
    match FindTitle(t0.rows, item.title)
    case Some(k) =>
      assert Table(s)[k].title == item.title;
    case None =>
      assert Table(s)[|Table(s)| - 1].title == item.title;
  }

  /** Every title the table held before an entry, it holds after. */
  lemma SeedStepKeepsTitles(t0: SeedState, item: SeedItem, embed: string -> Embedding, now: int)
    requires SeedStep(t0, item, embed, now).Ok?
    ensures Titles(Table(t0)) <= Titles(Table(SeedStep(t0, item, embed, now).value))
  {
    var s := SeedStep(t0, item, embed, now).value;
    SeedStepShape(t0, item, embed, now);
    SameKeysTitles(s.rows, t0.rows);
    TitlesConcat(s.rows, s.added);
    TitlesConcat(t0.rows, t0.added);
    if s.added != t0.added {
      TitlesConcat(t0.added, [s.added[|t0.added|]]);
    }
  }

  /** A successful run keeps the keys of the committed rows and gives the added rows consecutive fresh ids. */
  lemma {:induction false} SeededKeys(table: seq<Block>, n: nat, items: seq<SeedItem>, embed: string -> Embedding, now: int)
    requires Seeded(Start(table, n), items, embed, now).Ok?
    ensures var s := Seeded(Start(table, n), items, embed, now).value;
      SameKeys(s.rows, table) && s.nextId == n + |s.added| &&
      forall j :: 0 <= j < |s.added| ==> s.added[j].id == n + j
    decreases |items|
  {
    if items != [] {
      var m := |items| - 1;
      SeededKeys(table, n, items[..m], embed, now);
      var t0 := Seeded(Start(table, n), items[..m], embed, now).value;
      SeedStepShape(t0, items[m], embed, now);
    }
  }

  /** All entries' titles are covered once the earlier ones are and the last one is. */
  lemma CoveredSnoc(items: seq<SeedItem>, prefix: seq<SeedItem>, before: set<string>, after: set<string>)
    requires items != [] && prefix == items[..|items| - 1]
    requires before <= after && items[|items| - 1].title in after
    requires forall i :: 0 <= i < |prefix| ==> prefix[i].title in before
    ensures forall i :: 0 <= i < |items| ==> items[i].title in after
  {
    forall i | 0 <= i < |prefix| ensures items[i].title in after {
      assert prefix[i] == items[i];
    }
  }

  /** After a successful run every entry's title is in the table. */
  lemma {:induction false} SeededTitles(table: seq<Block>, n: nat, items: seq<SeedItem>, embed: string -> Embedding, now: int)
    requires Seeded(Start(table, n), items, embed, now).Ok?
    ensures var s := Seeded(Start(table, n), items, embed, now).value;
      forall i :: 0 <= i < |items| ==> items[i].title in Titles(Table(s))
    decreases |items|
  {
    if items != [] {
      var m := |items| - 1;
      SeededTitles(table, n, items[..m], embed, now);
      var t0 := Seeded(Start(table, n), items[..m], embed, now).value;
      SeedStepShape(t0, items[m], embed, now);
      SeedStepKeepsTitles(t0, items[m], embed, now);
      var s := SeedStep(t0, items[m], embed, now).value;
      CoveredSnoc(items, items[..m], Titles(Table(t0)), Titles(Table(s)));
    }
  }

  /** When every entry's title is already committed, a run refreshes rows in place and adds nothing. */
  lemma {:induction false} SeededNoInsert(s0: SeedState, items: seq<SeedItem>, embed: string -> Embedding, now: int)
    requires Seeded(s0, items, embed, now).Ok?
    requires forall i :: 0 <= i < |items| ==> items[i].title in Titles(s0.rows)
    ensures var s := Seeded(s0, items, embed, now).value;
      s.added == s0.added && s.nextId == s0.nextId && SameKeys(s.rows, s0.rows)
    decreases |items|
  {
    if items != [] {
      var m := |items| - 1;
      forall i | 0 <= i < m ensures items[..m][i].title in Titles(s0.rows) {
        assert items[..m][i] == items[i];
      }
      SeededNoInsert(s0, items[..m], embed, now);
      var t := Seeded(s0, items[..m], embed, now).value;
      SameKeysTitles(t.rows, s0.rows);
      FindTitleFinds(t.rows, items[m].title);
      SeedStepShape(t, items[m], embed, now);
    }
  }

  /** Seeding the same entries a second time inserts no block: the table keeps its length, ids and titles. */
  lemma SeedTwiceAddsNothing(table: seq<Block>, n: nat, items: seq<SeedItem>, embed: string -> Embedding, now: int)
    requires Seeded(Start(table, n), items, embed, now).Ok?
    ensures var first := Seeded(Start(table, n), items, embed, now).value;
      var second := Seeded(Start(Table(first), first.nextId), items, embed, now);
      second.Ok? && second.value.added == [] && second.value.nextId == first.nextId &&
      SameKeys(Table(second.value), Table(first))
  {
    var first := Seeded(Start(table, n), items, embed, now).value;
    SeededFailsIff(Start(table, n), items, embed, now);
    SeededFailsIff(Start(Table(first), first.nextId), items, embed, now);
    SeededTitles(table, n, items, embed, now);
    SeededNoInsert(Start(Table(first), first.nextId), items, embed, now);
    var second := Seeded(Start(Table(first), first.nextId), items, embed, now).value;
    assert Table(second) == second.rows;
  }

  /**
   * Blocks added by the same call are invisible to the title lookup: two entries
   * sharing a title that is not committed yield two rows with that title.
   */
  lemma DuplicateNewTitlesBothInserted(table: seq<Block>, n: nat, a: SeedItem, b: SeedItem,
                                       embed: string -> Embedding, now: int)
    requires a.title == b.title && a.title !in Titles(table)
    requires ParseBlockType(a.blockType).Some? && ParseBlockType(b.blockType).Some?
    ensures var s := Seeded(Start(table, n), [a, b], embed, now);
      s.Ok? && |s.value.added| == 2 && s.value.added[0].title == a.title && s.value.added[1].title == a.title
  {
    assert FindTitle(table, a.title).None? by {
      forall j | 0 <= j < |table| ensures table[j].title != a.title {
        assert table[j] in table;
      }
    }
    var s0 := Start(table, n);
    assert [a, b][..1] == [a] && [a][..0] == [] && [a, b][..0] == [];
    SeededSnoc(s0, [a, b], 0, embed, now);
    SeededSnoc(s0, [a, b], 1, embed, now);
    SeedItemsTakeAll([a, b]);
    var s1 := SeedStep(s0, a, embed, now).value;
    assert s1.rows == table;
    assert Seeded(s0, [a, b], embed, now) == SeedStep(s1, b, embed, now);
  }

  /** Committed rows that keep their keys, followed by rows under fresh consecutive ids, keep the primary key unique. */
  lemma FreshRowsUnique(rows: seq<Block>, table: seq<Block>, added: seq<Block>, n: nat)
    requires SameKeys(rows, table) && UniqueIds(table) && forall b :: b in table ==> b.id < n
    requires forall j :: 0 <= j < |added| ==> added[j].id == n + j
    ensures UniqueIds(rows + added) && forall b :: b in rows + added ==> b.id < n + |added|
  {
    forall i, j | 0 <= i < j < |rows + added| ensures (rows + added)[i].id != (rows + added)[j].id {
      if j < |rows| {
        assert table[i].id != table[j].id;
      } else if i < |rows| {
        assert table[i] in table;
      }
    }
    forall b | b in rows + added ensures b.id < n + |added| {
      var i :| 0 <= i < |rows + added| && (rows + added)[i] == b;
      if i < |rows| {
        assert table[i] in table;
      }
    }
  }

  /** A successful run keeps the primary key unique and every id below the counter. */
  lemma SeededValid(table: seq<Block>, n: nat, items: seq<SeedItem>, embed: string -> Embedding, now: int)
    requires UniqueIds(table) && forall b :: b in table ==> b.id < n
    requires Seeded(Start(table, n), items, embed, now).Ok?
    ensures var s := Seeded(Start(table, n), items, embed, now).value;
      UniqueIds(Table(s)) && (forall b :: b in Table(s) ==> b.id < s.nextId) && s.nextId >= n
  {
    SeededKeys(table, n, items, embed, now);
    var s := Seeded(Start(table, n), items, embed, now).value;
    FreshRowsUnique(s.rows, table, s.added, n);
  }

  /**
   * The loop of seed_experience_blocks on the session: each entry refreshes the
   * first committed row with its title or adds a new block; an unknown block type
   * raises and ends the loop.
   */
  method SeedSession(table: seq<Block>, nextId: nat, items: seq<SeedItem>, embed: string -> Embedding, now: int)
    returns (r: Result<SeedState, SeedError>)
    ensures r == Seeded(Start(table, nextId), items, embed, now)
  {
    var rows, added, next := table, [], nextId;
    for i := 0 to |items|
      invariant Seeded(Start(table, nextId), items[..i], embed, now) == Ok(SeedState(rows, added, next))
    {
      SeededSnoc(Start(table, nextId), items, i, embed, now);
      var item := items[i];
      var existing := FindTitle(rows, item.title);
      var combined := CombinedText(item);
      var blockType := ParseBlockType(item.blockType);
      if blockType.None? {
        SeededErrorAt(Start(table, nextId), items, i, embed, now);
        return Err(UnknownBlockType(item.blockType));
      }
      if existing.Some? {
        var k := existing.value;
        rows := rows[k := Refreshed(rows[k], item, blockType.value, embed(combined))];
      } else {
        var vector := embed(combined);
        added := added + [Inserted(next, item, blockType.value, vector, now)];
        next := next + 1;
      }
    }
    SeedItemsTakeAll(items);
    r := Ok(SeedState(rows, added, next));
  }

  /**
   * seed_experience_blocks with its commit, or the rollback of the caller when an
   * entry names an unknown block type.
   */
  method SeedExperienceBlocks(db: Store.Database, items: seq<SeedItem>, embed: string -> Embedding, now: int)
    returns (r: Result<(), SeedError>)
    requires db.Valid()
    modifies db
    ensures db.Valid()
    ensures var s := Seeded(Start(old(db.blocks), old(db.nextId)), items, embed, now);
      (r.Ok? <==> s.Ok?) && (s.Ok? ==> db.blocks == Table(s.value) && db.nextId == s.value.nextId)
    ensures r.Err? ==> db.blocks == old(db.blocks) && db.nextId == old(db.nextId)
    ensures db.personal == old(db.personal) && db.applications == old(db.applications)
  {
    var session := SeedSession(db.blocks, db.nextId, items, embed, now);
    if session.Err? {
      return Err(session.error);
    }
    SeededValid(db.blocks, db.nextId, items, embed, now);
    db.blocks := Table(session.value);
    db.nextId := session.value.nextId;
    r := Ok(());
  }

  // ---------------------------------------------------------------------------
  // Summary counts
  // ---------------------------------------------------------------------------

  /** How many entries carry block type k. */
  function CountOf(items: seq<SeedItem>, k: string): nat
    decreases |items|
  {
    if items == [] then 0
    else CountOf(items[..|items| - 1], k) + (if items[|items| - 1].blockType == k then 1 else 0)
  }

  /** The block types the entries name. */
  function TypeSet(items: seq<SeedItem>): set<string> {
    set i | 0 <= i < |items| :: items[i].blockType
  }

  lemma CountsSnoc(items: seq<SeedItem>, i: nat)
    requires i < |items|
    ensures TypeSet(items[..i + 1]) == TypeSet(items[..i]) + {items[i].blockType}
    ensures forall k :: CountOf(items[..i + 1], k) == CountOf(items[..i], k) + (if items[i].blockType == k then 1 else 0)
  {
    assert items[..i + 1][..i] == items[..i];
    assert forall j :: 0 <= j < i ==> items[..i + 1][j] == items[..i][j];
  }

  /** print_summary's counting loop: one dictionary entry per block type named, holding how many entries name it. */
  method BlockCounts(items: seq<SeedItem>) returns (counts: map<string, nat>)
    ensures counts.Keys == TypeSet(items)
    ensures forall k :: k in counts ==> counts[k] == CountOf(items, k) && counts[k] >= 1
  {
    counts := map[];
    for i := 0 to |items|
      invariant counts.Keys == TypeSet(items[..i])
      invariant forall k :: k in counts ==> counts[k] == CountOf(items[..i], k) && counts[k] >= 1
      invariant forall k :: k !in counts ==> CountOf(items[..i], k) == 0
    {
      CountsSnoc(items, i);
      var blockType := items[i].blockType;
      counts := counts[blockType := (if blockType in counts then counts[blockType] else 0) + 1];
    }
    SeedItemsTakeAll(items);
  }

  /** No key is listed twice. */
  predicate Distinct(keys: seq<string>) {
    forall i, j :: 0 <= i < j < |keys| ==> keys[i] != keys[j]
  }

  /** The counts of the listed keys, added up. */
  function SumCounts(items: seq<SeedItem>, keys: seq<string>): nat
    decreases |keys|
  {
    if keys == [] then 0 else CountOf(items, keys[0]) + SumCounts(items, keys[1..])
  }

  /** How often k is listed. */
  function Occurrences(keys: seq<string>, k: string): nat
    decreases |keys|
  {
    if keys == [] then 0 else (if keys[0] == k then 1 else 0) + Occurrences(keys[1..], k)
  }

  lemma {:induction false} SumCountsSnoc(items: seq<SeedItem>, x: SeedItem, keys: seq<string>)
    ensures SumCounts(items + [x], keys) == SumCounts(items, keys) + Occurrences(keys, x.blockType)
    decreases |keys|
  {
    assert (items + [x])[..|items|] == items;
    if keys != [] {
      SumCountsSnoc(items, x, keys[1..]);
    }
  }

  lemma {:induction false} OccurrencesDistinct(keys: seq<string>, k: string)
    requires Distinct(keys) && k in keys
    ensures Occurrences(keys, k) == 1
    decreases |keys|
  {
    if keys[0] == k {
      OccurrencesAbsent(keys[1..], k);
    } else {
      assert k in keys[1..];
      OccurrencesDistinct(keys[1..], k);
    }
  }

  lemma {:induction false} OccurrencesAbsent(keys: seq<string>, k: string)
    requires k !in keys
    ensures Occurrences(keys, k) == 0
    decreases |keys|
  {
    if keys != [] {
      OccurrencesAbsent(keys[1..], k);
    }
  }

  /**
   * Whatever order the summary lists the block types in, the per-type counts add
   * up to the number of entries.
   */
  lemma {:induction false} CountsSumToTotal(items: seq<SeedItem>, keys: seq<string>)
    requires Distinct(keys) && forall i :: 0 <= i < |items| ==> items[i].blockType in keys
    ensures SumCounts(items, keys) == |items|
    decreases |items|
  {
    if items == [] {
      SumCountsEmpty(keys);
    } else {
      var m := |items| - 1;
      assert items == items[..m] + [items[m]];
      CountsSumToTotal(items[..m], keys);
      SumCountsSnoc(items[..m], items[m], keys);
      OccurrencesDistinct(keys, items[m].blockType);
    }
  }

  lemma {:induction false} SumCountsEmpty(keys: seq<string>)
    ensures SumCounts([], keys) == 0
    decreases |keys|
  {
    if keys != [] {
      SumCountsEmpty(keys[1..]);
    }
  }

  // ---------------------------------------------------------------------------
  // The whole run
  // ---------------------------------------------------------------------------

  /**
   * seed_database: the personal info is seeded and committed first; a failure while
   * seeding the blocks rolls back only the blocks. On success the summary counts are returned.
   */
  method SeedDatabase(db: Store.Database, data: PersonalData, items: seq<SeedItem>,
                      embed: string -> Embedding, now: int)
    returns (r: Result<map<string, nat>, SeedError>)
    requires db.Valid()
    modifies db
    ensures db.Valid()
    ensures old(db.personal) == [] && LastValue(data, NameField).None? ==>
              r == Err(MissingName) && db.personal == old(db.personal) && db.blocks == old(db.blocks)
    ensures old(db.personal) != [] || LastValue(data, NameField).Some? ==>
              |db.personal| == 1 && db.personal[0].profile ==
                ApplyData(if old(db.personal) != [] then old(db.personal)[0].profile else BlankProfile, data)
    ensures (exists i :: 0 <= i < |items| && ParseBlockType(items[i].blockType).None?) ==>
              r.Err? && db.blocks == old(db.blocks)
    ensures r.Ok? <==> (old(db.personal) != [] || LastValue(data, NameField).Some?) && !HasUnknownType(items)
    ensures r.Ok? ==>
      var s := Seeded(Start(old(db.blocks), old(db.nextId) + (if old(db.personal) == [] then 1 else 0)), items, embed, now);
      s.Ok? && db.blocks == Table(s.value) && db.nextId == s.value.nextId
    ensures r.Ok? ==> r.value.Keys == TypeSet(items) && forall k :: k in r.value ==> r.value[k] == CountOf(items, k)
    ensures db.applications == old(db.applications)
  {
    var person := SeedPersonalInfo(db, data);
    if person.Err? {
      return Err(person.error);
    }
    ghost var before := db.blocks;
    ghost var n := db.nextId;
    SeededFailsIff(Start(before, n), items, embed, now);
    var seeded := SeedExperienceBlocks(db, items, embed, now);
    if seeded.Err? {
      return Err(seeded.error);
    }
    var counts := BlockCounts(items);
    r := Ok(counts);
  }
}
