/**
 * The one-off migration of a legacy experience_blocks table: add the block_type
 * and priority columns unless block_type is already there, then categorise the
 * existing rows by title (and company) with four UPDATE statements run in order,
 * so that a later rule overwrites an earlier one on the rows both match.
 */
module Migration {
  import opened Wrappers
  import opened Text
  import opened Models

  /** The columns of a legacy row the migration reads or writes; None is NULL (or a column not yet added). */
  datatype Row = Row(title: string, company: Option<string>, blockType: Option<string>, priority: Option<string>)

  /** The four categorising UPDATE statements. */
  datatype Rule = PillarRule | EmploymentRule | EducationRule | SkillsRule

  /** The statements in the order they run. */
  const Rules: seq<Rule> := [PillarRule, EmploymentRule, EducationRule, SkillsRule]

  /**
   * The WHERE clause of each statement. LIKE '%p%' without wildcards in p is a
   * case-sensitive substring test; `company = 'Monate Media'` is false on NULL; and
   * AND binds tighter than OR, so the company test qualifies only "Developer".
   */
  predicate Matches(rule: Rule, row: Row) {
    match rule
    case PillarRule => Contains(row.title, "ActuallyFind") || Contains(row.title, "Vector CV")
    case EmploymentRule =>
      (Contains(row.title, "Developer") && row.company == Some("Monate Media"))
      || Contains(row.title, "Advisor") || Contains(row.title, "Insurance") || Contains(row.title, "Consultant")
    case EducationRule => Contains(row.title, "Education") || Contains(row.title, "Certifications")
    case SkillsRule => Contains(row.title, "Skills") || Contains(row.title, "Technical")
  }

  /** The block type each statement sets. */
  function Target(rule: Rule): BlockType {
    match rule
    case PillarRule => PillarProject
    case EmploymentRule => Employment
    case EducationRule => Education
    case SkillsRule => SkillsSummary
  }

  /** One statement on one row: a matching row takes the rule's type and priority '1'. */
  function Marked(row: Row, rule: Rule): (r: Row)
    ensures r.title == row.title && r.company == row.company
  {
    if Matches(rule, row) then row.(blockType := Some(BlockTypeValue(Target(rule))), priority := Some("1")) else row
  }

  /** The two ALTER TABLE statements on one row: the column defaults fill it in. */
  function WithDefaults(row: Row): Row {
    row.(blockType := Some(BlockTypeValue(SupportingProject)), priority := Some("3"))
  }

  /** The statements of rules, in order, on one row. */
  function MarkedAll(row: Row, rules: seq<Rule>): Row
    decreases |rules|
  {
    if rules == [] then row else MarkedAll(Marked(row, rules[0]), rules[1..])
  }

  /** The row a legacy row becomes. */
  function Categorised(row: Row): Row {
    MarkedAll(WithDefaults(row), Rules)
  }

  /**
   * The category the ordered statements settle on: the last rule that matches
   * wins, and a row no rule matches stays a supporting project.
   */
  function Category(row: Row): (t: BlockType)
    ensures t == SkillsSummary <==> Matches(SkillsRule, row)
    ensures t == SupportingProject <==> forall rule :: rule in Rules ==> !Matches(rule, row)
    ensures t != SupportingProject ==> exists rule :: rule in Rules && Matches(rule, row) && Target(rule) == t
  {
    if Matches(SkillsRule, row) then SkillsSummary
    else if Matches(EducationRule, row) then Education
    else if Matches(EmploymentRule, row) then Employment
    else if Matches(PillarRule, row) then PillarProject
    else SupportingProject
  }

  /** Matching depends only on the title and the company, which no statement writes. */
  lemma MatchesKeys(rule: Rule, a: Row, b: Row)
    requires a.title == b.title && a.company == b.company
    ensures Matches(rule, a) == Matches(rule, b)
  {
  }

  /** A run of statements leaves a row alone unless one of them matches, and otherwise the last match decides. */
  lemma {:induction false} MarkedAllLastWins(row: Row, rules: seq<Rule>)
    ensures MarkedAll(row, rules).title == row.title && MarkedAll(row, rules).company == row.company
    ensures (forall rule :: rule in rules ==> !Matches(rule, row)) ==> MarkedAll(row, rules) == row
    ensures forall k :: 0 <= k < |rules| && Matches(rules[k], row) &&
                        (forall j :: k < j < |rules| ==> !Matches(rules[j], row)) ==>
              MarkedAll(row, rules) == row.(blockType := Some(BlockTypeValue(Target(rules[k]))), priority := Some("1"))
    decreases |rules|
  {
    if rules != [] {
      var next := Marked(row, rules[0]);
      forall rule ensures Matches(rule, next) == Matches(rule, row) {
        MatchesKeys(rule, next, row);
      }
      MarkedAllLastWins(next, rules[1..]);
      forall k | 0 <= k < |rules| && Matches(rules[k], row) && (forall j :: k < j < |rules| ==> !Matches(rules[j], row))
        ensures MarkedAll(row, rules) == row.(blockType := Some(BlockTypeValue(Target(rules[k]))), priority := Some("1"))
      {
        if k == 0 {
          assert forall rule :: rule in rules[1..] ==> !Matches(rule, next) by {
            forall rule | rule in rules[1..] ensures !Matches(rule, next) {
              var j :| 0 <= j < |rules[1..]| && rules[1..][j] == rule;
              assert rules[j + 1] == rule;
            }
          }
        } else {
          assert rules[1..][k - 1] == rules[k];
          assert forall j :: k - 1 < j < |rules[1..]| ==> rules[1..][j] == rules[j + 1];
        }
      }
    }
  }

  /**
   * What the migration makes of a row: the category of the last matching rule,
   * with priority '1' when any rule matched and '3' otherwise; title and company kept.
   */
  lemma CategorisedRow(row: Row)
    ensures Categorised(row).title == row.title && Categorised(row).company == row.company
    ensures Categorised(row).blockType == Some(BlockTypeValue(Category(row)))
    ensures Categorised(row).priority == Some(if Category(row) == SupportingProject then "3" else "1")
  {
    var d := WithDefaults(row);
    forall rule ensures Matches(rule, d) == Matches(rule, row) {
      MatchesKeys(rule, d, row);
    }
    MarkedAllLastWins(d, Rules);
    if Matches(SkillsRule, row) {
      assert Rules[3] == SkillsRule;
    } else if Matches(EducationRule, row) {
      assert Rules[2] == EducationRule;
    } else if Matches(EmploymentRule, row) {
      assert Rules[1] == EmploymentRule;
    } else if Matches(PillarRule, row) {
      assert Rules[0] == PillarRule;
    }
  }

  /** How a migration run ended. */
  datatype Outcome =
    | Skipped   // block_type already present
    | Migrated  // columns added and rows categorised, then committed
    | Failed    // an ALTER TABLE refused, and the rollback undid the run

  /** The legacy experience_blocks table: which of the two new columns exist, and its rows. */
  class BlocksTable {
    var hasBlockType: bool
    var hasPriority: bool
    var rows: seq<Row>

    constructor (rows0: seq<Row>, hasBlockType0: bool, hasPriority0: bool)
      ensures rows == rows0 && hasBlockType == hasBlockType0 && hasPriority == hasPriority0
    {
      rows, hasBlockType, hasPriority := rows0, hasBlockType0, hasPriority0;
    }

    /** The two ALTER TABLE ... ADD COLUMN ... DEFAULT statements. */
    method AddColumns()
      requires !hasBlockType && !hasPriority
      modifies this
      ensures hasBlockType && hasPriority
      ensures rows == seq(|old(rows)|, i requires 0 <= i < |old(rows)| => WithDefaults(old(rows)[i]))
    {
      hasBlockType, hasPriority := true, true;
      var current := rows;
      rows := seq(|current|, i requires 0 <= i < |current| => WithDefaults(current[i]));
    }

    /** One categorising UPDATE: every matching row, and only those, takes the rule's type and priority '1'. */
    method Update(rule: Rule)
      modifies this
      ensures rows == seq(|old(rows)|, i requires 0 <= i < |old(rows)| => Marked(old(rows)[i], rule))
      ensures hasBlockType == old(hasBlockType) && hasPriority == old(hasPriority)
    {
      var current := rows;
      rows := seq(|current|, i requires 0 <= i < |current| => Marked(current[i], rule));
    }

    /**
     * migrate_database: nothing happens when block_type exists; adding priority over
     * an existing priority column fails and is rolled back; otherwise every row is
     * defaulted and then categorised by the four statements in order.
     */
    method Migrate() returns (outcome: Outcome)
      modifies this
      ensures old(hasBlockType) ==> outcome == Skipped
      ensures !old(hasBlockType) && old(hasPriority) ==> outcome == Failed
      ensures outcome != Migrated ==>
                rows == old(rows) && hasBlockType == old(hasBlockType) && hasPriority == old(hasPriority)
      ensures !old(hasBlockType) && !old(hasPriority) ==>
                outcome == Migrated && hasBlockType && hasPriority &&
                rows == seq(|old(rows)|, i requires 0 <= i < |old(rows)| => Categorised(old(rows)[i]))
    {
      if hasBlockType {
        return Skipped;
      }
      if hasPriority {
        return Failed;
      }
      ghost var before := rows;
      AddColumns();
      Update(PillarRule);
      Update(EmploymentRule);
      Update(EducationRule);
      Update(SkillsRule);
      assert Rules == [PillarRule, EmploymentRule, EducationRule, SkillsRule];
      forall i | 0 <= i < |before| ensures rows[i] == Categorised(before[i]) {
        assert rows[i] == Marked(Marked(Marked(Marked(WithDefaults(before[i]), PillarRule), EmploymentRule),
                                        EducationRule), SkillsRule);
        CategorisedUnfold(before[i]);
      }
      outcome := Migrated;
    }
  }

  lemma CategorisedUnfold(row: Row)
    ensures Categorised(row) ==
              Marked(Marked(Marked(Marked(WithDefaults(row), PillarRule), EmploymentRule), EducationRule), SkillsRule)
  {
    var d := WithDefaults(row);
    assert Rules[1..] == [EmploymentRule, EducationRule, SkillsRule];
    assert Rules[1..][1..] == [EducationRule, SkillsRule];
    assert Rules[1..][1..][1..] == [SkillsRule];
    assert Rules[1..][1..][1..][1..] == [];
  }
}
