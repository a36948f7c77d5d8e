/** The commit message: the fixed template and the chain of `replace`
    calls that fills it from the record (`COMMIT_TEMPLATE` and the F6
    branch of `commit` in src/main.rs). */
module Template {
  import opened Strings
  import Form

  datatype Option<T> = None | Some(value: T)

  /** The placeholders of the template, in the order they appear. */
  datatype Placeholder =
      Title
    | Description
    | Steps
    | ExpectedDescription
    | SystemBefore
    | SystemAfter
    | Expectation
    | Samples
    | Vulnerabilities
    | Qualities
    | Conformity
    | Risk
    | TestsAdded
    | TestsUpdated
    | TestDeleted
    | TestedPlatforms
    | BreakingChanges
    | Dependencies
    | Rollbacks
    | DbUp
    | DbDown
    | DbChanges
    | WhyDbChanges
    | Authors
    | Testers
    | Comments
    | Notes
    | NewsHeadline
    | Workflow
    | WorkflowsSamples
    | TechnicalConsiderations
    | NextDescription
    | NextMotivation
    | NextReasons
    | NextLinks

  /** The placeholder's name, written between two `%` in the template. */
  function Name(h: Placeholder): string
  {
    match h
    case Title => "title"
    case Description => "description"
    case Steps => "steps"
    case ExpectedDescription => "expected_description"
    case SystemBefore => "system_before"
    case SystemAfter => "system_after"
    case Expectation => "expectation"
    case Samples => "samples"
    case Vulnerabilities => "vulnerabilities"
    case Qualities => "qualities"
    case Conformity => "conformity"
    case Risk => "risk"
    case TestsAdded => "tests_added"
    case TestsUpdated => "tests_updated"
    case TestDeleted => "test_deleted"
    case TestedPlatforms => "tested_platforms"
    case BreakingChanges => "breaking_changes"
    case Dependencies => "dependencies"
    case Rollbacks => "rollbacks"
    case DbUp => "db_up"
    case DbDown => "db_down"
    case DbChanges => "db_changes"
    case WhyDbChanges => "why_db_changes"
    case Authors => "authors"
    case Testers => "testers"
    case Comments => "comments"
    case Notes => "notes"
    case NewsHeadline => "news_headline"
    case Workflow => "workflow"
    case WorkflowsSamples => "workflows_samples"
    case TechnicalConsiderations => "technical_considerations"
    case NextDescription => "next_description"
    case NextMotivation => "next_motivation"
    case NextReasons => "next_reasons"
    case NextLinks => "next_links"
  }

  /** The placeholder as it is written in the template. */
  function Token(h: Placeholder): string
  {
    "%" + Name(h) + "%"
  }

  /** The placeholder a name belongs to, if any. The length and first
      letter of a name already single out its placeholder; the name is then
      checked in full. */
  function Parse(n: string): (r: Option<Placeholder>)
    ensures r.Some? ==> Name(r.value) == n
  {
    var guess := Guess(n);
    if guess.Some? && Name(guess.value) == n then guess else None
  }

  /** The only placeholder whose name could be `n`. */
  function Guess(n: string): Option<Placeholder>
  {
    if |n| == 0 then None else Identify(|n|, n[0])
  }

  /** The only placeholder whose name has length `len` and starts with
      `initial`. */
  function Identify(len: nat, initial: char): Option<Placeholder>
  {
    match initial
    case 't' =>
      if len == 5 then Some(Title)
      else if len == 11 then Some(TestsAdded)
      else if len == 13 then Some(TestsUpdated)
      else if len == 12 then Some(TestDeleted)
      else if len == 16 then Some(TestedPlatforms)
      else if len == 7 then Some(Testers)
      else if len == 24 then Some(TechnicalConsiderations)
      else None
    case 'd' =>
      if len == 11 then Some(Description)
      else if len == 12 then Some(Dependencies)
      else if len == 5 then Some(DbUp)
      else if len == 7 then Some(DbDown)
      else if len == 10 then Some(DbChanges)
      else None
    case 's' =>
      if len == 5 then Some(Steps)
      else if len == 13 then Some(SystemBefore)
      else if len == 12 then Some(SystemAfter)
      else if len == 7 then Some(Samples)
      else None
    case 'e' =>
      if len == 20 then Some(ExpectedDescription)
      else if len == 11 then Some(Expectation)
      else None
    case 'v' =>
      if len == 15 then Some(Vulnerabilities)
      else None
    case 'q' =>
      if len == 9 then Some(Qualities)
      else None
    case 'c' =>
      if len == 10 then Some(Conformity)
      else if len == 8 then Some(Comments)
      else None
    case 'r' =>
      if len == 4 then Some(Risk)
      else if len == 9 then Some(Rollbacks)
      else None
    case 'b' =>
      if len == 16 then Some(BreakingChanges)
      else None
    case 'w' =>
      if len == 14 then Some(WhyDbChanges)
      else if len == 8 then Some(Workflow)
      else if len == 17 then Some(WorkflowsSamples)
      else None
    case 'a' =>
      if len == 7 then Some(Authors)
      else None
    case 'n' =>
      if len == 5 then Some(Notes)
      else if len == 13 then Some(NewsHeadline)
      else if len == 16 then Some(NextDescription)
      else if len == 15 then Some(NextMotivation)
      else if len == 12 then Some(NextReasons)
      else if len == 10 then Some(NextLinks)
      else None
    case _ => None
  }

  /** One placeholder and the text that follows it up to the next one:
      a blank line, then each of `after` followed by a blank line. */
  datatype Hole = Hole(placeholder: Placeholder, after: seq<string>)

  /** A template: a head, then placeholders each followed by its text. */
  datatype Template = Template(head: string, holes: seq<Hole>)

  /** The text between a placeholder and the next one. */
  function Gap(after: seq<string>): string
  {
    if |after| == 0 then "\n\n" else "\n\n" + after[0] + Gap(after[1..])
  }

  /** The template with each placeholder shown as `show` says. */
  function Layout(t: Template, show: Placeholder -> string): string
  {
    t.head + Body(t.holes, show)
  }

  function Body(holes: seq<Hole>, show: Placeholder -> string): string
  {
    if |holes| == 0 then "" else show(holes[0].placeholder) + Gap(holes[0].after) + Body(holes[1..], show)
  }

  /** The template as written, every placeholder in place. */
  function Text(t: Template): string
  {
    Layout(t, Token)
  }

  /** `COMMIT_TEMPLATE`, section by section; the longer prose lines are
      written as several literals joined together. */
  const CommitTemplate := Template("# ", [
    Hole(Title, []),
    Hole(Description, ["### Steps to reproduce"]),
    Hole(Steps, ["### Expected behavior"]),
    Hole(ExpectedDescription, ["## Resolution", "Explains the state of the system " + "before and after the changes", "### Before"]),
    Hole(SystemBefore, ["### After"]),
    Hole(SystemAfter, ["### Expectation"]),
    Hole(Expectation, ["### Samples"]),
    Hole(Samples, ["## Security", "The security section discusses any " + "security-related impacts that may " + "arise from the newly added " + "authentication system", "### Vulnerabilities"]),
    Hole(Vulnerabilities, ["### Quality"]),
    Hole(Qualities, ["### Conformity"]),
    Hole(Conformity, ["### Risk"]),
    Hole(Risk, ["## Tests", "### Added"]),
    Hole(TestsAdded, ["### Updated"]),
    Hole(TestsUpdated, ["### Deleted"]),
    Hole(TestDeleted, ["### Platforms"]),
    Hole(TestedPlatforms, ["## Requirements", "### BREAKING CHANGES"]),
    Hole(BreakingChanges, ["### Dependencies"]),
    Hole(Dependencies, ["### Rollback"]),
    Hole(Rollbacks, ["## Database", "### Up"]),
    Hole(DbUp, ["### Down"]),
    Hole(DbDown, ["### Changes"]),
    Hole(DbChanges, ["### Why"]),
    Hole(WhyDbChanges, ["## Communication", "### Authors"]),
    Hole(Authors, ["### Testers"]),
    Hole(Testers, ["### Comments"]),
    Hole(Comments, ["### Notes"]),
    Hole(Notes, ["## Ideas", "### News headline"]),
    Hole(NewsHeadline, ["### Workflow"]),
    Hole(Workflow, ["### Examples"]),
    Hole(WorkflowsSamples, ["### Technical considerations"]),
    Hole(TechnicalConsiderations, ["## Next", "### Description"]),
    Hole(NextDescription, ["### Motivation"]),
    Hole(NextMotivation, ["### Why implement it"]),
    Hole(NextReasons, ["### Related Links"]),
    Hole(NextLinks, [])])

  /** The placeholders of the `replace` calls of the F6 branch, in the
      order the calls are made; `Source` gives the field each call reads.
      The `%system_before%` call is made twice, and `%next_motivation%` is
      replaced before `%next_description%`. */
  const Calls: seq<Placeholder> := [
    Title,
    Description,
    Steps,
    ExpectedDescription,
    SystemBefore,
    SystemAfter,
    SystemBefore,
    Expectation,
    Samples,
    Vulnerabilities,
    Qualities,
    Conformity,
    Risk,
    TestsAdded,
    TestsUpdated,
    TestDeleted,
    TestedPlatforms,
    BreakingChanges,
    Dependencies,
    Rollbacks,
    DbUp,
    DbDown,
    DbChanges,
    WhyDbChanges,
    Authors,
    Testers,
    Comments,
    Notes,
    NewsHeadline,
    Workflow,
    WorkflowsSamples,
    TechnicalConsiderations,
    NextMotivation,
    NextDescription,
    NextReasons,
    NextLinks]

  /** Applies the `replace` calls in order, each to the result of the
      previous one. */
  function Substitute(s: string, calls: seq<Placeholder>, c: Form.Commit): string
    decreases |calls|
  {
    if |calls| == 0 then s
    else Substitute(ReplaceAll(s, Token(calls[0]), Value(c, calls[0])), calls[1..], c)
  }

  /** The value the call for `h` puts in place of `%h%`. */
  function Value(c: Form.Commit, h: Placeholder): string
  {
    Form.Get(c, Source(h))
  }

  /** The commit message sent for record `c`. */
  function Render(c: Form.Commit): string
  {
    Substitute(Text(CommitTemplate), Calls, c)
  }

  /** The record field each placeholder stands for. */
  function Source(h: Placeholder): Form.Field
  {
    match h
    case Title => Form.Title
    case Description => Form.Description
    case Steps => Form.Steps
    case ExpectedDescription => Form.ExpectedDescription
    case SystemBefore => Form.SystemBefore
    case SystemAfter => Form.SystemAfter
    case Expectation => Form.Expectation
    case Samples => Form.Samples
    case Vulnerabilities => Form.Vulnerabilities
    case Qualities => Form.Qualities
    case Conformity => Form.Conforms
    case Risk => Form.Risks
    case TestsAdded => Form.TestsAdded
    case TestsUpdated => Form.TestsUpdated
    case TestDeleted => Form.TestsDeleted
    case TestedPlatforms => Form.Platforms
    case BreakingChanges => Form.BreakingChanges
    case Dependencies => Form.Dependencies
    case Rollbacks => Form.Rollbacks
    case DbUp => Form.UpMigrations
    case DbDown => Form.DownMigrations
    case DbChanges => Form.Changes
    case WhyDbChanges => Form.MigrationWhy
    case Authors => Form.Authors
    case Testers => Form.Testers
    case Comments => Form.Comments
    case Notes => Form.Notes
    case NewsHeadline => Form.NewsHeadline
    case Workflow => Form.Workflow
    case WorkflowsSamples => Form.WorkflowsSamples
    case TechnicalConsiderations => Form.TechnicalConsiderations
    case NextDescription => Form.NextFeatures
    case NextMotivation => Form.NextMotivation
    case NextReasons => Form.NextReasons
    case NextLinks => Form.NextResources
  }

  /** A character that ends or starts every stretch of literal text
      around a placeholder. */
  predicate Separator(ch: char)
  {
    ch == ' ' || ch == '\n'
  }

  /** The text after a placeholder holds no `%`. */
  predicate PlainHole(x: Hole)
  {
    forall j :: 0 <= j < |x.after| ==> '%' !in x.after[j]
  }

  /** What the substitution needs of a template: the head ends with a
      separator, and no literal text holds a `%`. */
  predicate WellFormed(t: Template)
  {
    && |t.head| > 0 && Separator(t.head[|t.head| - 1]) && '%' !in t.head
    && forall i :: 0 <= i < |t.holes| ==> PlainHole(t.holes[i])
  }

  /** A value that holds no placeholder of the template. */
  ghost predicate Clean(v: string)
  {
    forall h :: !Occurs(v, Token(h))
  }

  /** `show` after one `replace` call for `h0` with value `v`: a
      placeholder still shown as itself becomes `v` if it is `h0`. */
  function Fill(show: Placeholder -> string, h0: Placeholder, v: string): Placeholder -> string
  {
    h => if h == h0 && show(h) == Token(h) then v else show(h)
  }

  /** `show` after a whole sequence of calls: a placeholder still shown as
      itself takes the value of the first call that names it. */
  function Resolved(show: Placeholder -> string, calls: seq<Placeholder>, c: Form.Commit): Placeholder -> string
  {
    h => if show(h) == Token(h) && h in calls then Value(c, h) else show(h)
  }

  /** A letter of a placeholder name. */
  predicate NameChar(ch: char)
  {
    'a' <= ch <= 'z' || ch == '_'
  }

  /** A non-empty run of name letters. */
  predicate Word(n: string)
  {
    |n| > 0 && forall i :: 0 <= i < |n| ==> NameChar(n[i])
  }

  /** `NameWords0` to `NameWords4` check the 35 names a handful at a time,
      so that each literal check stays small; `NamePlain` combines them. */
  lemma NameWords0()
    ensures Word("title") && Word("description") && Word("steps") && Word("expected_description") && Word("system_before") && Word("system_after") && Word("expectation")
  {
  }

  lemma NameWords1()
    ensures Word("samples") && Word("vulnerabilities") && Word("qualities") && Word("conformity") && Word("risk") && Word("tests_added") && Word("tests_updated")
  {
  }

  lemma NameWords2()
    ensures Word("test_deleted") && Word("tested_platforms") && Word("breaking_changes") && Word("dependencies") && Word("rollbacks") && Word("db_up") && Word("db_down")
  {
  }

  lemma NameWords3()
    ensures Word("db_changes") && Word("why_db_changes") && Word("authors") && Word("testers") && Word("comments") && Word("notes") && Word("news_headline")
  {
  }

  lemma NameWords4()
    ensures Word("workflow") && Word("workflows_samples") && Word("technical_considerations") && Word("next_description") && Word("next_motivation") && Word("next_reasons") && Word("next_links")
  {
  }

  /** Every placeholder name is a word, so it holds no `%` and no
      separator. */
  lemma NamePlain(h: Placeholder)
    ensures Word(Name(h))
    ensures '%' !in Name(h) && ' ' !in Name(h) && '\n' !in Name(h)
  {
    NameWords0();
    NameWords1();
    NameWords2();
    NameWords3();
    NameWords4();
  }

  /** Names are told apart by `Parse`, so distinct placeholders have
      distinct names. */
  lemma NameParse(h: Placeholder)
    ensures Parse(Name(h)) == Some(h)
  {
    NameKey(h);
  }

  /** The length and first letter of each name single it out. */
  lemma NameKey(h: Placeholder)
    ensures |Name(h)| > 0 && Identify(|Name(h)|, Name(h)[0]) == Some(h)
  {
  }

  lemma TokenInjective(h: Placeholder, h': Placeholder)
    ensures Token(h) == Token(h') ==> h == h'
  {
    if Token(h) == Token(h') {
      assert Name(h) == Token(h)[1..|Token(h)| - 1];
      assert Name(h') == Token(h')[1..|Token(h')| - 1];
      NameParse(h);
      NameParse(h');
    }
  }

  /** Two different words wrapped in `%` never occur one inside the
      other: the inner `%` of a match would have to meet a letter. */
  lemma WordsApart(x: string, y: string)
    requires Word(x) && Word(y) && x != y
    ensures !Occurs("%" + x + "%", "%" + y + "%")
  {
    var s, p := "%" + x + "%", "%" + y + "%";
    forall j | 0 <= j <= |s| - |p|
      ensures !MatchAt(s, p, j)
    {
      if j == 0 {
        if |p| < |s| {
          assert s[j..j + |p|][|p| - 1] == x[|p| - 2];
          assert s[j..j + |p|][|p| - 1] != p[|p| - 1];
        } else {
          assert s[j..j + |p|] == s;
          assert x == s[1..|s| - 1] && y == p[1..|p| - 1];
        }
      } else {
        assert s[j..j + |p|][0] == x[j - 1];
        assert s[j..j + |p|][0] != p[0];
      }
    }
  }

  /** One placeholder never appears inside another. */
  lemma TokensApart(h: Placeholder, h0: Placeholder)
    requires h != h0
    ensures !Occurs(Token(h), Token(h0))
  {
    NamePlain(h);
    NamePlain(h0);
    TokenInjective(h, h0);
    WordsApart(Name(h), Name(h0));
  }

  /** A separator is never part of a placeholder. */
  lemma SeparatorNotInToken(ch: char, h: Placeholder)
    requires Separator(ch)
    ensures ch !in Token(h)
  {
    NamePlain(h);
  }

  /** A value equal to a placeholder is not clean. */
  lemma TokenNotClean(h: Placeholder)
    ensures !Clean(Token(h))
  {
    NamePlain(h);
    ReplaceAllSelf(Token(h), "");
  }

  /** The gap after a placeholder starts and ends with a newline and holds
      a `%` only if one of its sections does. */
  lemma {:induction false} GapShape(after: seq<string>)
    ensures |Gap(after)| >= 2 && Gap(after)[0] == '\n' && Gap(after)[|Gap(after)| - 1] == '\n'
    ensures (forall j :: 0 <= j < |after| ==> '%' !in after[j]) ==> '%' !in Gap(after)
    decreases |after|
  {
    if |after| > 0 {
      GapShape(after[1..]);
    }
  }

  /** Text without `%` holds no placeholder and survives a call intact. */
  lemma PlainSurvives(s: string, h: Placeholder, v: string)
    requires '%' !in s
    ensures ReplaceAll(s, Token(h), v) == s
  {
    AbsentHead(s, Token(h));
    ReplaceAllAbsent(s, Token(h), v);
  }

  /** One shown placeholder under one call: it becomes `v` when it is
      still the placeholder `h0` itself, and is otherwise unchanged. */
  lemma ShownStep(show: Placeholder -> string, h: Placeholder, h0: Placeholder, v: string)
    requires show(h) == Token(h) || Clean(show(h))
    ensures ReplaceAll(show(h), Token(h0), v) == Fill(show, h0, v)(h)
  {
    var shown, token := show(h), Token(h0);
    if shown == Token(h) && h == h0 {
      ReplaceAllSelf(token, v);
      assert Fill(show, h0, v)(h) == v;
    } else {
      assert Fill(show, h0, v)(h) == shown;
      if shown == Token(h) {
        TokensApart(h, h0);
      }
      ReplaceAllAbsent(shown, token, v);
    }
  }

  /** Replacing in `x + g + rest`, where `g` holds no match and starts and
      ends with a character foreign to the pattern, replaces in `x` and in
      `rest` separately. */
  lemma SeamStep(x: string, g: string, rest: string, pat: string, rep: string)
    requires |pat| > 0 && |g| > 0 && g[0] !in pat && g[|g| - 1] !in pat
    requires ReplaceAll(g, pat, rep) == g
    ensures ReplaceAll(x + g + rest, pat, rep) == ReplaceAll(x, pat, rep) + g + ReplaceAll(rest, pat, rep)
  {
    assert (x + g)[|x + g| - 1] == g[|g| - 1];
    ReplaceAllSplit(x + g, rest, pat, rep);
    ReplaceAllSplit(x, g, pat, rep);
  }

  /** One call on the body of a well-formed template acts on each shown
      placeholder separately. */
  lemma {:induction false} BodyStep(holes: seq<Hole>, show: Placeholder -> string, h0: Placeholder, v: string)
    requires forall i :: 0 <= i < |holes| ==> PlainHole(holes[i])
    requires forall h :: show(h) == Token(h) || Clean(show(h))
    ensures ReplaceAll(Body(holes, show), Token(h0), v) == Body(holes, Fill(show, h0, v))
    decreases |holes|
  {
    if |holes| > 0 {
      var h, g := holes[0].placeholder, Gap(holes[0].after);
      GapShape(holes[0].after);
      SeparatorNotInToken('\n', h0);
      PlainSurvives(g, h0, v);
      SeamStep(show(h), g, Body(holes[1..], show), Token(h0), v);
      ShownStep(show, h, h0, v);
      BodyStep(holes[1..], show, h0, v);
    }
  }

  /** One call on a well-formed template. */
  lemma LayoutStep(t: Template, show: Placeholder -> string, h0: Placeholder, v: string)
    requires WellFormed(t)
    requires forall h :: show(h) == Token(h) || Clean(show(h))
    ensures ReplaceAll(Layout(t, show), Token(h0), v) == Layout(t, Fill(show, h0, v))
  {
    NamePlain(h0);
    SeparatorNotInToken(t.head[|t.head| - 1], h0);
    ReplaceAllSplit(t.head, Body(t.holes, show), Token(h0), v);
    PlainSurvives(t.head, h0, v);
    BodyStep(t.holes, show, h0, v);
  }

  /** Layouts under two ways of showing that agree everywhere are equal. */
  lemma {:induction false} BodyExt(holes: seq<Hole>, f: Placeholder -> string, g: Placeholder -> string)
    requires forall h :: f(h) == g(h)
    ensures Body(holes, f) == Body(holes, g)
    decreases |holes|
  {
    if |holes| > 0 {
      BodyExt(holes[1..], f, g);
    }
  }

  /** The chain of calls on a well-formed template replaces each
      placeholder, at every place it appears, with the value of the first
      call that names it, provided no value holds a placeholder. */
  lemma {:induction false} SubstituteLayout(t: Template, show: Placeholder -> string,
                                            calls: seq<Placeholder>, c: Form.Commit)
    requires WellFormed(t)
    requires forall h :: show(h) == Token(h) || Clean(show(h))
    requires forall i :: 0 <= i < |calls| ==> Clean(Value(c, calls[i]))
    ensures Substitute(Layout(t, show), calls, c) == Layout(t, Resolved(show, calls, c))
    decreases |calls|
  {
    if |calls| == 0 {
      BodyExt(t.holes, show, Resolved(show, calls, c));
    } else {
      var h0, v := calls[0], Value(c, calls[0]);
      var show1 := Fill(show, h0, v);
      LayoutStep(t, show, h0, v);
      forall h ensures show1(h) == Token(h) || Clean(show1(h)) {
      }
      SubstituteLayout(t, show1, calls[1..], c);
      forall h ensures Resolved(show1, calls[1..], c)(h) == Resolved(show, calls, c)(h) {
        if h == h0 && show(h) == Token(h) {
          TokenNotClean(h);
        }
      }
      BodyExt(t.holes, Resolved(show1, calls[1..], c), Resolved(show, calls, c));
    }
  }

  /** The literal text of the template holds no `%`. `TextPlain0` to
      `TextPlain8` check the pieces a group at a time, so that each literal
      check stays small; `CommitTemplateWellFormed` combines them. */
  lemma TextPlain0()
    ensures '%' !in "### Steps to reproduce"
         && '%' !in "### Expected behavior"
         && '%' !in "## Resolution"
         && '%' !in "Explains the state of the system "
  {
  }

  lemma TextPlain1()
    ensures '%' !in "before and after the changes"
         && '%' !in "### Before"
         && '%' !in "### After"
         && '%' !in "### Expectation"
         && '%' !in "### Samples"
         && '%' !in "## Security"
  {
  }

  lemma TextPlain2()
    ensures '%' !in "The security section discusses any "
         && '%' !in "security-related impacts that may "
  {
  }

  lemma TextPlain3()
    ensures '%' !in "arise from the newly added "
         && '%' !in "authentication system"
         && '%' !in "### Vulnerabilities"
         && '%' !in "### Quality"
  {
  }

  lemma TextPlain4()
    ensures '%' !in "### Conformity"
         && '%' !in "### Risk"
         && '%' !in "## Tests"
         && '%' !in "### Added"
         && '%' !in "### Updated"
         && '%' !in "### Deleted"
         && '%' !in "### Platforms"
         && '%' !in "## Requirements"
  {
  }

  lemma TextPlain5()
    ensures '%' !in "### BREAKING CHANGES"
         && '%' !in "### Dependencies"
         && '%' !in "### Rollback"
         && '%' !in "## Database"
         && '%' !in "### Up"
         && '%' !in "### Down"
         && '%' !in "### Changes"
  {
  }

  lemma TextPlain6()
    ensures '%' !in "### Why"
         && '%' !in "## Communication"
         && '%' !in "### Authors"
         && '%' !in "### Testers"
         && '%' !in "### Comments"
         && '%' !in "### Notes"
         && '%' !in "## Ideas"
  {
  }

  lemma TextPlain7()
    ensures '%' !in "### News headline"
         && '%' !in "### Workflow"
         && '%' !in "### Examples"
         && '%' !in "### Technical considerations"
         && '%' !in "## Next"
  {
  }

  lemma TextPlain8()
    ensures '%' !in "### Description"
         && '%' !in "### Motivation"
         && '%' !in "### Why implement it"
         && '%' !in "### Related Links"
  {
  }

  /** The template the commit message is made from is well formed. */
  lemma CommitTemplateWellFormed()
    ensures WellFormed(CommitTemplate)
  {
    TextPlain0();
    TextPlain1();
    TextPlain2();
    TextPlain3();
    TextPlain4();
    TextPlain5();
    TextPlain6();
    TextPlain7();
    TextPlain8();
  }

  /** Every placeholder of the template has a call. */
  lemma CallsCover(h: Placeholder)
    ensures h in Calls
  {
  }

  /** No call reads the `packages` field. */
  lemma SourceNotPackages(h: Placeholder)
    ensures Source(h) != Form.Packages
  {
  }

  /** Values, template text and the head without `%` leave none in the
      layout. */
  lemma {:induction false} BodyPlain(holes: seq<Hole>, show: Placeholder -> string)
    requires forall i :: 0 <= i < |holes| ==> PlainHole(holes[i])
    requires forall h :: '%' !in show(h)
    ensures '%' !in Body(holes, show)
    decreases |holes|
  {
    if |holes| > 0 {
      GapShape(holes[0].after);
      BodyPlain(holes[1..], show);
    }
  }

  /** A value without `%` holds no placeholder. */
  lemma PlainClean(v: string)
    requires '%' !in v
    ensures Clean(v)
  {
    forall h ensures !Occurs(v, Token(h)) {
      AbsentHead(v, Token(h));
    }
  }

  /** The calls cover every placeholder. */
  ghost predicate Covering(calls: seq<Placeholder>)
  {
    forall h :: h in calls
  }

  /** On a well-formed template, calls that cover every placeholder and
      values that hold no placeholder fill every placeholder with its
      value. */
  lemma FillsClean(t: Template, calls: seq<Placeholder>, c: Form.Commit)
    requires WellFormed(t) && Covering(calls)
    requires forall h :: Clean(Value(c, h))
    ensures Substitute(Layout(t, Token), calls, c) == Layout(t, h => Value(c, h))
  {
    SubstituteLayout(t, Token, calls, c);
    BodyExt(t.holes, Resolved(Token, calls, c), h => Value(c, h));
  }

  /** The same for values without `%`. */
  lemma FillsAll(t: Template, calls: seq<Placeholder>, c: Form.Commit)
    requires WellFormed(t) && Covering(calls)
    requires forall h :: '%' !in Value(c, h)
    ensures Substitute(Layout(t, Token), calls, c) == Layout(t, h => Value(c, h))
  {
    forall h ensures Clean(Value(c, h)) {
      PlainClean(Value(c, h));
    }
    FillsClean(t, calls, c);
  }

  /** On a well-formed template filled with values that hold no
      placeholder, a further round of calls finds nothing to replace. */
  lemma FillsOnce(t: Template, calls: seq<Placeholder>, c: Form.Commit)
    requires WellFormed(t)
    requires forall h :: Clean(Value(c, h))
    ensures Substitute(Layout(t, h => Value(c, h)), calls, c) == Layout(t, h => Value(c, h))
  {
    var show := h => Value(c, h);
    SubstituteLayout(t, show, calls, c);
    forall h ensures Resolved(show, calls, c)(h) == show(h) {
      TokenNotClean(h);
    }
    BodyExt(t.holes, Resolved(show, calls, c), show);
  }

  /** Every placeholder of the template has a call. */
  lemma CallsCovering()
    ensures Covering(Calls)
  {
    forall h ensures h in Calls {
      CallsCover(h);
    }
  }

  /** When no field value holds a `%`, the message is the template with
      every placeholder, at every place it appears, replaced by the value
      of the field it stands for; in particular the second
      `%system_before%` call finds nothing left to replace. */
  lemma RenderFills(c: Form.Commit)
    requires forall h :: '%' !in Value(c, h)
    ensures Render(c) == Layout(CommitTemplate, h => Value(c, h))
  {
    CommitTemplateWellFormed();
    CallsCovering();
    FillsAll(CommitTemplate, Calls, c);
  }

  /** When no field value holds a placeholder, the message is the template
      with every placeholder, at every place it appears, replaced by the
      value of the field it stands for. */
  lemma RenderClean(c: Form.Commit)
    requires forall h :: Clean(Value(c, h))
    ensures Render(c) == Layout(CommitTemplate, h => Value(c, h))
  {
    CommitTemplateWellFormed();
    CallsCovering();
    FillsClean(CommitTemplate, Calls, c);
  }

  /** When no field value holds a placeholder, none is left in the
      message: every placeholder has been filled. When no value even holds
      a `%`, no `%` is left at all. */
  lemma RenderComplete(c: Form.Commit)
    requires forall h :: Clean(Value(c, h))
    ensures forall h :: !Occurs(Render(c), Token(h))
    ensures (forall h :: '%' !in Value(c, h)) ==> '%' !in Render(c)
  {
    RenderClean(c);
    CommitTemplateWellFormed();
    LayoutClean(CommitTemplate, h => Value(c, h));
    if forall h :: '%' !in Value(c, h) {
      LayoutPlain(CommitTemplate, h => Value(c, h));
    }
  }

  /** A well-formed template shown with values that hold no placeholder
      holds none: no placeholder straddles a seam. */
  lemma LayoutClean(t: Template, show: Placeholder -> string)
    requires WellFormed(t)
    requires forall h :: Clean(show(h))
    ensures Clean(Layout(t, show))
  {
    forall h0 ensures !Occurs(Layout(t, show), Token(h0)) {
      BodyClean(t.holes, show, h0);
      SeparatorNotInToken(t.head[|t.head| - 1], h0);
      AbsentHead(t.head, Token(h0));
      OccursJoin(t.head, Body(t.holes, show), Token(h0));
    }
  }

  /** The body of a template shown with values that hold no `%h0%` holds
      none. */
  lemma {:induction false} BodyClean(holes: seq<Hole>, show: Placeholder -> string, h0: Placeholder)
    requires forall i :: 0 <= i < |holes| ==> PlainHole(holes[i])
    requires forall h :: !Occurs(show(h), Token(h0))
    ensures !Occurs(Body(holes, show), Token(h0))
    decreases |holes|
  {
    if |holes| > 0 {
      var x, g, rest := show(holes[0].placeholder), Gap(holes[0].after), Body(holes[1..], show);
      GapShape(holes[0].after);
      SeparatorNotInToken('\n', h0);
      AbsentHead(g, Token(h0));
      OccursJoin(x, g, Token(h0));
      BodyClean(holes[1..], show, h0);
      assert (x + g)[|x + g| - 1] == g[|g| - 1];
      OccursJoin(x + g, rest, Token(h0));
      assert Body(holes, show) == (x + g) + rest;
    }
  }

  /** A well-formed template shown with values without `%` holds none. */
  lemma LayoutPlain(t: Template, show: Placeholder -> string)
    requires WellFormed(t)
    requires forall h :: '%' !in show(h)
    ensures '%' !in Layout(t, show)
  {
    BodyPlain(t.holes, show);
  }

  /** The message starts with the title as a level-one heading, followed
      by a blank line. */
  lemma RenderStartsWithTitle(c: Form.Commit)
    requires forall h :: Clean(Value(c, h))
    ensures "# " + c.title + "\n\n" <= Render(c)
  {
    RenderClean(c);
    TemplateStart();
    LeadingHole(CommitTemplate, h => Value(c, h));
  }

  /** The message opens with the text of the first area of the first page,
      the title, as a level-one heading: `update_commit` reads the title
      from that area. */
  lemma RenderTitleFromArea(g: Form.Grid)
    requires Form.Shaped(g)
    requires forall h :: Clean(Value(Form.Project(g), h))
    ensures "# " + JoinLines(g[0][0]) + "\n\n" <= Render(Form.Project(g))
  {
    RenderStartsWithTitle(Form.Project(g));
    Form.ProjectTable(g, Form.Title);
  }

  /** The template opens with `# ` and the title placeholder. */
  lemma TemplateStart()
    ensures CommitTemplate.head == "# " && |CommitTemplate.holes| == 35
    ensures CommitTemplate.holes[0].placeholder == Title
  {
  }

  /** A layout starts with its head, then the first placeholder as shown,
      then a blank line. */
  lemma LeadingHole(t: Template, show: Placeholder -> string)
    requires |t.holes| > 0
    ensures t.head + show(t.holes[0].placeholder) + "\n\n" <= Layout(t, show)
  {
    var x, g, rest := show(t.holes[0].placeholder), Gap(t.holes[0].after), Body(t.holes[1..], show);
    GapShape(t.holes[0].after);
    assert g[..2] == "\n\n";
    assert Layout(t, show) == t.head + (x + (g + rest));
    assert (t.head + x + "\n\n") + (g[2..] + rest) == Layout(t, show);
  }

  /** Filling the template again with the same record changes nothing. */
  lemma RenderIdempotent(c: Form.Commit)
    requires forall h :: Clean(Value(c, h))
    ensures Substitute(Render(c), Calls, c) == Render(c)
  {
    RenderClean(c);
    CommitTemplateWellFormed();
    FillsOnce(CommitTemplate, Calls, c);
  }

  /** Two records that agree on every field a call reads give the same
      message. */
  lemma {:induction false} SubstituteReads(s: string, calls: seq<Placeholder>, c: Form.Commit, d: Form.Commit)
    requires forall h :: Value(c, h) == Value(d, h)
    ensures Substitute(s, calls, c) == Substitute(s, calls, d)
    decreases |calls|
  {
    if |calls| > 0 {
      SubstituteReads(ReplaceAll(s, Token(calls[0]), Value(c, calls[0])), calls[1..], c, d);
    }
  }

  /** The `packages` field never reaches the message, whatever the other
      fields hold. */
  lemma RenderIgnoresPackages(c: Form.Commit, v: string)
    ensures Render(c.(packages := v)) == Render(c)
  {
    forall h ensures Value(c.(packages := v), h) == Value(c, h) {
      SourceNotPackages(h);
    }
    SubstituteReads(Text(CommitTemplate), Calls, c.(packages := v), c);
  }

  /** The empty record, the one every session starts from and returns to
      after a commit, gives the template with every placeholder blank. */
  lemma RenderEmpty()
    ensures Render(Form.EmptyCommit) == Layout(CommitTemplate, _ => "")
  {
    EmptyValues();
    RenderFills(Form.EmptyCommit);
    BodyExt(CommitTemplate.holes, h => Value(Form.EmptyCommit, h), _ => "");
  }

  /** Every value of the empty record is blank. */
  lemma EmptyValues()
    ensures forall h :: Value(Form.EmptyCommit, h) == ""
  {
  }
}
