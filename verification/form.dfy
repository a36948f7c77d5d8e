/** The form's content and the commit record built from it
    (`Commit`, `get_lines` and `update_commit` in src/main.rs). */
module Form {
  import opened Strings
  import opened Schema

  /** The lines of every text area: nine pages of four areas, each area an
      ordered sequence of lines. */
  type Grid = seq<seq<seq<string>>>

  /** The grid has the form's shape. */
  predicate Shaped(g: Grid)
  {
    |g| == PageCount && forall p :: 0 <= p < |g| ==> |g[p]| == FieldsPerPage
  }

  /** A text area that was never typed into holds one empty line. */
  const EmptyArea: seq<string> := [""]

  /** The grid of a freshly opened form. */
  const EmptyGrid: Grid := [EmptyPage, EmptyPage, EmptyPage, EmptyPage, EmptyPage, EmptyPage, EmptyPage, EmptyPage, EmptyPage]

  /** The four areas of a page of a freshly opened form. */
  const EmptyPage: seq<seq<string>> := [EmptyArea, EmptyArea, EmptyArea, EmptyArea]

  /** The joined text of every area, in the grid's layout. */
  type Texts = seq<seq<string>>

  predicate TextsShaped(t: Texts)
  {
    |t| == PageCount && forall p :: 0 <= p < |t| ==> |t[p]| == FieldsPerPage
  }

  /** Lines as a text area holds them: at least one, none with a newline. */
  predicate AreaLines(lines: seq<string>)
  {
    |lines| > 0 && forall i :: 0 <= i < |lines| ==> '\n' !in lines[i]
  }

  /** `get_lines` applied to every area: its lines joined with newlines.
      Flattening loses nothing: the lines of every area split back out of
      its text. */
  function JoinAll(g: Grid): (t: Texts)
    requires Shaped(g)
    ensures TextsShaped(t)
    ensures forall p, a {:trigger SplitLines(t[p][a])} :: 0 <= p < PageCount && 0 <= a < FieldsPerPage && AreaLines(g[p][a]) ==>
              SplitLines(t[p][a]) == g[p][a]
  {
    AreasSplit(g);
    seq(PageCount, p requires 0 <= p < PageCount => seq(FieldsPerPage, a requires 0 <= a < FieldsPerPage => JoinLines(g[p][a])))
  }

  /** Every area's lines split back out of their join. */
  lemma AreasSplit(g: Grid)
    requires Shaped(g)
    ensures forall p, a :: 0 <= p < PageCount && 0 <= a < FieldsPerPage && AreaLines(g[p][a]) ==>
              SplitLines(JoinLines(g[p][a])) == g[p][a]
  {
    forall p, a | 0 <= p < PageCount && 0 <= a < FieldsPerPage && AreaLines(g[p][a])
      ensures SplitLines(JoinLines(g[p][a])) == g[p][a]
    {
      SplitJoin(g[p][a]);
    }
  }

  /** The record that is rendered into the commit message, one text per
      field, in the declaration order of the source's struct. */
  datatype Commit = Commit(
    title: string,
    description: string,
    steps: string,
    expected_description: string,
    system_before: string,
    system_after: string,
    expectation: string,
    samples: string,
    vulnerabilities: string,
    qualities: string,
    conforms: string,
    risks: string,
    tests_added: string,
    tests_updated: string,
    tests_deleted: string,
    platforms: string,
    breaking_changes: string,
    dependencies: string,
    rollbacks: string,
    up_migrations: string,
    down_migrations: string,
    changes: string,
    migration_why: string,
    authors: string,
    testers: string,
    comments: string,
    notes: string,
    packages: string,
    news_headline: string,
    workflow: string,
    workflows_samples: string,
    technical_considerations: string,
    next_features: string,
    next_motivation: string,
    next_reasons: string,
    next_resources: string)

  /** The record with every field empty (`Commit::default()`). */
  const EmptyCommit := Commit("", "", "", "", "", "", "", "", "", "", "", "", "", "", "", "", "", "", "", "", "", "", "", "", "", "", "", "", "", "", "", "", "", "", "", "")


  /** Names of the record's fields. */
  datatype Field =
      Title
    | Description
    | Steps
    | ExpectedDescription
    | SystemBefore
    | SystemAfter
    | Expectation
    | Samples
    | Vulnerabilities
    | Qualities
    | Conforms
    | Risks
    | TestsAdded
    | TestsUpdated
    | TestsDeleted
    | Platforms
    | BreakingChanges
    | Dependencies
    | Rollbacks
    | UpMigrations
    | DownMigrations
    | Changes
    | MigrationWhy
    | Authors
    | Testers
    | Comments
    | Notes
    | Packages
    | NewsHeadline
    | Workflow
    | WorkflowsSamples
    | TechnicalConsiderations
    | NextFeatures
    | NextMotivation
    | NextReasons
    | NextResources

  /** Reads one field of the record. */
  function Get(c: Commit, f: Field): string
  {
    match f
    case Title => c.title
    case Description => c.description
    case Steps => c.steps
    case ExpectedDescription => c.expected_description
    case SystemBefore => c.system_before
    case SystemAfter => c.system_after
    case Expectation => c.expectation
    case Samples => c.samples
    case Vulnerabilities => c.vulnerabilities
    case Qualities => c.qualities
    case Conforms => c.conforms
    case Risks => c.risks
    case TestsAdded => c.tests_added
    case TestsUpdated => c.tests_updated
    case TestsDeleted => c.tests_deleted
    case Platforms => c.platforms
    case BreakingChanges => c.breaking_changes
    case Dependencies => c.dependencies
    case Rollbacks => c.rollbacks
    case UpMigrations => c.up_migrations
    case DownMigrations => c.down_migrations
    case Changes => c.changes
    case MigrationWhy => c.migration_why
    case Authors => c.authors
    case Testers => c.testers
    case Comments => c.comments
    case Notes => c.notes
    case Packages => c.packages
    case NewsHeadline => c.news_headline
    case Workflow => c.workflow
    case WorkflowsSamples => c.workflows_samples
    case TechnicalConsiderations => c.technical_considerations
    case NextFeatures => c.next_features
    case NextMotivation => c.next_motivation
    case NextReasons => c.next_reasons
    case NextResources => c.next_resources
  }

  /** The area each field is read from, as `update_commit` lays it out:
      (page, area). */
  function Origin(f: Field): (PageIndex, Slot)
  {
    match f
    case Title => (0, 0)
    case Description => (0, 1)
    case Steps => (0, 2)
    case ExpectedDescription => (0, 3)
    case SystemBefore => (1, 0)
    case SystemAfter => (1, 1)
    case Expectation => (1, 2)
    case Samples => (1, 3)
    case Vulnerabilities => (2, 0)
    case Qualities => (2, 1)
    case Conforms => (2, 2)
    case Risks => (2, 3)
    case TestsAdded => (3, 0)
    case TestsUpdated => (3, 1)
    case TestsDeleted => (3, 2)
    case Platforms => (3, 3)
    case BreakingChanges => (4, 0)
    case Dependencies => (4, 1)
    case Rollbacks => (4, 3)
    case UpMigrations => (5, 0)
    case DownMigrations => (5, 1)
    case Changes => (5, 2)
    case MigrationWhy => (5, 3)
    case Authors => (6, 0)
    case Testers => (6, 1)
    case Comments => (6, 2)
    case Notes => (6, 3)
    case Packages => (4, 2)
    case NewsHeadline => (7, 0)
    case Workflow => (7, 1)
    case WorkflowsSamples => (7, 2)
    case TechnicalConsiderations => (7, 3)
    case NextFeatures => (8, 0)
    case NextMotivation => (8, 1)
    case NextReasons => (8, 2)
    case NextResources => (8, 3)
  }

  /** The field fed by each area; the inverse of `Origin`. */
  function FieldAt(p: PageIndex, a: Slot): Field
  {
    match (p, a)
    case (0, 0) => Title
    case (0, 1) => Description
    case (0, 2) => Steps
    case (0, 3) => ExpectedDescription
    case (1, 0) => SystemBefore
    case (1, 1) => SystemAfter
    case (1, 2) => Expectation
    case (1, 3) => Samples
    case (2, 0) => Vulnerabilities
    case (2, 1) => Qualities
    case (2, 2) => Conforms
    case (2, 3) => Risks
    case (3, 0) => TestsAdded
    case (3, 1) => TestsUpdated
    case (3, 2) => TestsDeleted
    case (3, 3) => Platforms
    case (4, 0) => BreakingChanges
    case (4, 1) => Dependencies
    case (4, 2) => Packages
    case (4, 3) => Rollbacks
    case (5, 0) => UpMigrations
    case (5, 1) => DownMigrations
    case (5, 2) => Changes
    case (5, 3) => MigrationWhy
    case (6, 0) => Authors
    case (6, 1) => Testers
    case (6, 2) => Comments
    case (6, 3) => Notes
    case (7, 0) => NewsHeadline
    case (7, 1) => Workflow
    case (7, 2) => WorkflowsSamples
    case (7, 3) => TechnicalConsiderations
    case (8, 0) => NextFeatures
    case (8, 1) => NextMotivation
    case (8, 2) => NextReasons
    case _ => NextResources
  }

  /** `update_commit` on the joined texts: each field takes the text of
      the area the source assigns to it. */
  function Record(t: Texts): Commit
    requires TextsShaped(t)
  {
    Commit(
      title := t[0][0],
      description := t[0][1],
      steps := t[0][2],
      expected_description := t[0][3],
      system_before := t[1][0],
      system_after := t[1][1],
      expectation := t[1][2],
      samples := t[1][3],
      vulnerabilities := t[2][0],
      qualities := t[2][1],
      conforms := t[2][2],
      risks := t[2][3],
      tests_added := t[3][0],
      tests_updated := t[3][1],
      tests_deleted := t[3][2],
      platforms := t[3][3],
      breaking_changes := t[4][0],
      dependencies := t[4][1],
      packages := t[4][2],
      news_headline := t[7][0],
      workflow := t[7][1],
      workflows_samples := t[7][2],
      technical_considerations := t[7][3],
      next_features := t[8][0],
      next_motivation := t[8][1],
      next_reasons := t[8][2],
      next_resources := t[8][3],
      rollbacks := t[4][3],
      up_migrations := t[5][0],
      down_migrations := t[5][1],
      changes := t[5][2],
      migration_why := t[5][3],
      authors := t[6][0],
      testers := t[6][1],
      comments := t[6][2],
      notes := t[6][3])
  }

  /** `update_commit`: every field is the joined text of its area. */
  function Project(g: Grid): Commit
    requires Shaped(g)
  {
    Record(JoinAll(g))
  }

  /** Every area feeds exactly one field and every field is fed by
      exactly one area: `Origin` and `FieldAt` are inverse bijections
      between the 36 fields and the 36 areas. */
  lemma FieldAtOrigin(f: Field)
    ensures FieldAt(Origin(f).0, Origin(f).1) == f
  {
  }

  lemma OriginFieldAt(p: PageIndex, a: Slot)
    ensures Origin(FieldAt(p, a)) == (p, a)
  {
  }

  /** Each field of the projected record is the joined text of the area
      `Origin` assigns to it. */
  lemma ProjectTable(g: Grid, f: Field)
    requires Shaped(g)
    ensures Get(Project(g), f) == JoinLines(g[Origin(f).0][Origin(f).1])
  {
    RecordTable(JoinAll(g), f);
  }

  /** Each field of the record is the text at the position `Origin`
      assigns to it. */
  lemma RecordTable(t: Texts, f: Field)
    requires TextsShaped(t)
    ensures Get(Record(t), f) == t[Origin(f).0][Origin(f).1]
  {
  }

  /** Areas that were never typed into give the empty record. */
  lemma ProjectEmpty()
    ensures Shaped(EmptyGrid)
    ensures Project(EmptyGrid) == EmptyCommit
  {
  }

  /** Replacing the text of one position changes only the field read
      from that position. */
  lemma RecordLocal(t: Texts, p: PageIndex, a: Slot, v: string, f: Field)
    requires TextsShaped(t)
    ensures TextsShaped(t[p := t[p][a := v]])
    ensures Get(Record(t[p := t[p][a := v]]), f) == if Origin(f) == (p, a) then v else Get(Record(t), f)
  {
    var t', o := t[p := t[p][a := v]], Origin(f);
    UpdateShaped(t, p, a, v);
    assert t'[o.0][o.1] == if o == (p, a) then v else t[o.0][o.1];
    RecordTable(t, f);
    RecordTable(t', f);
  }

  lemma UpdateShaped(t: Texts, p: PageIndex, a: Slot, v: string)
    requires TextsShaped(t)
    ensures TextsShaped(t[p := t[p][a := v]])
  {
    var t' := t[p := t[p][a := v]];
    forall i | 0 <= i < |t'| ensures |t'[i]| == FieldsPerPage {
    }
  }

  /** Joining after replacing one area's lines is replacing that area's
      joined text. */
  lemma JoinAllUpdate(g: Grid, p: PageIndex, a: Slot, lines: seq<string>)
    requires Shaped(g)
    ensures Shaped(g[p := g[p][a := lines]])
    ensures JoinAll(g[p := g[p][a := lines]]) == JoinAll(g)[p := JoinAll(g)[p][a := JoinLines(lines)]]
  {
    var g' := g[p := g[p][a := lines]];
    assert Shaped(g') by {
      forall i | 0 <= i < |g'| ensures |g'[i]| == FieldsPerPage {
      }
    }
    var t, t' := JoinAll(g), JoinAll(g');
    var u := t[p := t[p][a := JoinLines(lines)]];
    forall i | 0 <= i < PageCount ensures t'[i] == u[i] {
      forall j | 0 <= j < FieldsPerPage ensures t'[i][j] == u[i][j] {
        if (i, j) != (p, a) {
          assert g'[i][j] == g[i][j];
        }
      }
    }
  }

  /** Replacing the lines of one area changes only the field that area
      feeds; that field becomes the new lines joined with newlines. */
  lemma ProjectLocal(g: Grid, p: PageIndex, a: Slot, lines: seq<string>, f: Field)
    requires Shaped(g)
    ensures Shaped(g[p := g[p][a := lines]])
    ensures Origin(f) != (p, a) ==> Get(Project(g[p := g[p][a := lines]]), f) == Get(Project(g), f)
    ensures Origin(f) == (p, a) ==> Get(Project(g[p := g[p][a := lines]]), f) == JoinLines(lines)
  {
    JoinAllUpdate(g, p, a, lines);
    RecordLocal(JoinAll(g), p, a, JoinLines(lines), f);
  }
}
