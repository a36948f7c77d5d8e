/** The key loop of the commit form (`commit` in src/main.rs): a cursor
    over the pages and areas, the lines typed so far, and the record the
    commit message is rendered from. */
module Navigation {
  import opened Strings
  import opened Schema
  import Form

  /** What one pass of the loop reads. The text area's own editing is not
      modelled: `Input` carries the lines the active area holds after the
      key has been applied to it. */
  datatype Event =
      Escape               // Esc: leave the loop
    | Send                 // F6: render the record and commit it
    | PageUp               // next page
    | PageDown             // previous page
    | NextArea             // F7: next area of the page
    | PrevArea             // F5: previous area of the page
    | Input(lines: seq<string>)  // any other key: handed to the active area, which
                                 // then holds `lines`, changed or not
    | NotAKey              // a read error or a non-key event: nothing happens

  /** The loop's variables: `page`, `witch` (the active area), the lines of
      every area, and `commit_message`. */
  datatype Session = Session(page: nat, witch: nat, grid: Form.Grid, record: Form.Commit)

  /** The cursor is on the form and the grid has the form's shape. */
  predicate Valid(s: Session)
  {
    s.page < PageCount && s.witch < FieldsPerPage && Form.Shaped(s.grid)
  }

  /** The record is the projection of the current lines. */
  predicate Synced(s: Session)
  {
    Valid(s) && s.record == Form.Project(s.grid)
  }

  /** What the loop holds at all times: the record is either the
      projection of the current lines or, right after a commit, the empty
      record. */
  predicate Consistent(s: Session)
  {
    Valid(s) && (s.record == Form.Project(s.grid) || s.record == Form.EmptyCommit)
  }

  /** A freshly opened form: first page, first area, empty areas, and the
      record projected from them. */
  const Fresh := Session(0, 0, Form.EmptyGrid, Form.EmptyCommit)

  /** The result of one pass: the loop ends, goes on with a new state, or
      commits the message rendered from `record` and, once the form the
      commit opens is closed, goes on with `resumed`. */
  datatype Outcome = Exit | Stay(next: Session) | Sent(record: Form.Commit, resumed: Session)

  /** One pass of the loop for one event. Page moves reset the active area
      to the first one and stop at the first and last page; area moves stop
      at the first and last area; an edit replaces the active area's lines
      and projects the record again from every area; a commit renders the
      record as it stands and then empties it, leaving the lines as they
      are. */
  function Step(s: Session, e: Event): (o: Outcome)
    requires Valid(s)
    ensures o.Stay? ==> Valid(o.next) && o.next.record == (if e.Input? then Form.Project(o.next.grid) else s.record)
    ensures o.Sent? <==> e == Send
    ensures o.Exit? <==> e == Escape
    ensures o.Sent? ==> o.record == s.record && o.resumed == s.(record := Form.EmptyCommit)
  {
    match e
    case Escape => Exit
    case Send => Sent(s.record, s.(record := Form.EmptyCommit))
    case PageUp => Stay(s.(page := if s.page < PageCount - 1 then s.page + 1 else s.page, witch := 0))
    case PageDown => Stay(s.(page := if s.page > 0 then s.page - 1 else s.page, witch := 0))
    case NextArea => Stay(if s.witch < FieldsPerPage - 1 then s.(witch := s.witch + 1) else s)
    case PrevArea => Stay(if s.witch > 0 then s.(witch := s.witch - 1) else s)
    case Input(lines) => Stay(Edit(s, lines))
    case NotAKey => Stay(s)
  }

  /** An edit: the active area gets the new lines and the record is
      projected again from every area. */
  function Edit(s: Session, lines: seq<string>): (n: Session)
    requires Valid(s)
    ensures Synced(n)
    ensures n.page == s.page && n.witch == s.witch && n.grid[n.page][n.witch] == lines
  {
    Form.JoinAllUpdate(s.grid, s.page, s.witch, lines);
    var g := s.grid[s.page := s.grid[s.page][s.witch := lines]];
    s.(grid := g, record := Form.Project(g))
  }

  /** The fresh form is consistent, and its record is what `update_commit`
      gives for areas that were never typed into. */
  lemma FreshSynced()
    ensures Synced(Fresh)
  {
    Form.ProjectEmpty();
  }

  /** Page moves: up moves one page forward unless on the last page, down
      one page back unless on the first; either way the first area becomes
      active, and nothing else changes. */
  lemma PageMoves(s: Session)
    requires Valid(s)
    ensures Step(s, PageUp) == Stay(s.(page := if s.page == PageCount - 1 then s.page else s.page + 1, witch := 0))
    ensures Step(s, PageDown) == Stay(s.(page := if s.page == 0 then 0 else s.page - 1, witch := 0))
  {
  }

  /** Area moves: forward stops at the fourth area, back at the first; the
      page and everything else stay. */
  lemma AreaMoves(s: Session)
    requires Valid(s)
    ensures Step(s, NextArea) == Stay(s.(witch := if s.witch == FieldsPerPage - 1 then s.witch else s.witch + 1))
    ensures Step(s, PrevArea) == Stay(s.(witch := if s.witch == 0 then 0 else s.witch - 1))
  {
  }

  /** Down undoes up except on the last page, and up undoes down except on
      the first, as far as the page is concerned. */
  lemma PageRoundTrip(s: Session)
    requires Valid(s)
    ensures s.page < PageCount - 1 ==> Step(Step(s, PageUp).next, PageDown) == Stay(s.(witch := 0))
    ensures s.page > 0 ==> Step(Step(s, PageDown).next, PageUp) == Stay(s.(witch := 0))
  {
  }

  /** Back undoes forward except on the last area, and forward undoes back
      except on the first. */
  lemma AreaRoundTrip(s: Session)
    requires Valid(s)
    ensures s.witch < FieldsPerPage - 1 ==> Step(Step(s, NextArea).next, PrevArea) == Stay(s)
    ensures s.witch > 0 ==> Step(Step(s, PrevArea).next, NextArea) == Stay(s)
  {
  }

  /** An edit changes the lines of the active area only; the cursor stays
      where it is. */
  lemma InputLines(s: Session, lines: seq<string>, p: PageIndex, a: Slot)
    requires Valid(s)
    ensures Step(s, Input(lines)) == Stay(Edit(s, lines))
    ensures Edit(s, lines).page == s.page && Edit(s, lines).witch == s.witch
    ensures Edit(s, lines).grid[p][a] == if (p, a) == (s.page, s.witch) then lines else s.grid[p][a]
  {
  }

  /** After an edit, of the record projected from the lines only the field
      the active area feeds differs, and it becomes the new lines joined
      with newlines. */
  lemma InputRecord(s: Session, lines: seq<string>, f: Form.Field)
    requires Valid(s)
    ensures Form.Origin(f) != (s.page, s.witch) ==>
              Form.Get(Edit(s, lines).record, f) == Form.Get(Form.Project(s.grid), f)
    ensures Form.Origin(f) == (s.page, s.witch) ==>
              Form.Get(Edit(s, lines).record, f) == JoinLines(lines)
  {
    Form.ProjectLocal(s.grid, s.page, s.witch, lines, f);
  }

  /** Every pass keeps the loop consistent; an edit leaves the record in
      step with the lines. */
  lemma StepConsistent(s: Session, e: Event)
    requires Consistent(s)
    ensures Step(s, e).Stay? ==> Consistent(Step(s, e).next)
    ensures Step(s, e).Sent? ==> Consistent(Step(s, e).resumed)
    ensures e.Input? ==> Synced(Step(s, e).next)
  {
  }

  /** What a run of keys leaves behind: the records committed, in order,
      the form on screen at the end, whether Esc closed the form the run
      started in, and the keys left after that Esc. */
  datatype Trace = Trace(sent: seq<Form.Commit>, last: Session, exited: bool, rest: seq<Event>)

  /** Runs the loop of one form over `events` until they run out or Esc
      closes the form. After a commit the source opens a new form inside
      this one (`commit` calls itself): the inner form starts like `Fresh`
      and reads the following keys until its own Esc; only then does this
      form go on, with its lines as they were and an empty record. */
  function Run(s: Session, events: seq<Event>): (t: Trace)
    requires Valid(s)
    ensures Valid(t.last)
    ensures t.exited ==> |t.rest| < |events|
    ensures !t.exited ==> t.rest == []
    decreases |events|, 1
  {
    if |events| == 0 then Trace([], s, false, []) else Pass(s, events)
  }

  /** The run from the pass that reads the first key on. */
  function Pass(s: Session, events: seq<Event>): (t: Trace)
    requires Valid(s) && |events| > 0
    ensures Valid(t.last)
    ensures t.exited ==> |t.rest| < |events|
    ensures !t.exited ==> t.rest == []
    decreases |events|, 0
  {
    match Step(s, events[0])
    case Exit => Trace([], s, true, events[1..])
    case Stay(next) => Run(next, events[1..])
    case Sent(record, resumed) =>
      FreshSynced();
      var inner := Run(Fresh, events[1..]);
      if !inner.exited then inner.(sent := [record] + inner.sent)
      else
        var outer := Run(resumed, inner.rest);
        outer.(sent := [record] + inner.sent + outer.sent)
  }

  /** A run keeps every form consistent: the cursor stays on the form and
      the record is always either the projection of the lines or empty. */
  lemma {:induction false} RunConsistent(s: Session, events: seq<Event>)
    requires Consistent(s)
    ensures Consistent(Run(s, events).last)
    decreases |events|
  {
    if |events| > 0 {
      StepConsistent(s, events[0]);
      match Step(s, events[0])
      case Exit =>
      case Stay(next) => RunConsistent(next, events[1..]);
      case Sent(_, resumed) =>
        FreshSynced();
        var inner := Run(Fresh, events[1..]);
        RunConsistent(Fresh, events[1..]);
        if inner.exited {
          RunConsistent(resumed, inner.rest);
        }
    }
  }

  /** From a fresh form, whatever keys are pressed, the page stays within
      0..8 and the active area within 0..3. */
  lemma FreshBounds(events: seq<Event>)
    ensures Valid(Fresh)
    ensures Run(Fresh, events).last.page <= 8 && Run(Fresh, events).last.witch <= 3
  {
    FreshSynced();
  }

  /** The F6 presses read before the Esc that closes the outermost form,
      when `depth` forms opened by earlier commits are still open inside
      it: each F6 opens one more form and each Esc closes the innermost. */
  function Presses(events: seq<Event>, depth: nat): nat
    decreases |events|
  {
    if |events| == 0 then 0
    else if events[0] == Escape then (if depth == 0 then 0 else Presses(events[1..], depth - 1))
    else if events[0] == Send then 1 + Presses(events[1..], depth + 1)
    else Presses(events[1..], depth)
  }

  /** The F6 presses in `rest` that the forms around a form `depth` levels
      inside the outermost one read, once that form is closed. */
  function Pending(rest: seq<Event>, depth: nat): nat
  {
    if depth == 0 then 0 else Presses(rest, depth - 1)
  }

  /** Each commit sends exactly one message, whichever form reads the F6:
      a run of a form `depth` levels inside the outermost one sends the F6
      presses read up to its own Esc, and the rest are left to the form
      around it. From the outermost form, the messages are the F6 presses
      before the Esc that closes it. */
  lemma {:induction false} RunSends(s: Session, events: seq<Event>, depth: nat)
    requires Valid(s)
    ensures Presses(events, depth) == |Run(s, events).sent| + Pending(Run(s, events).rest, depth)
    decreases |events|, 1
  {
    if |events| == 0 {
    } else if events[0] == Escape {
      RunOnEscape(s, events);
    } else if events[0] == Send {
      SendsOnSend(s, events, depth);
    } else {
      RunOnKey(s, events);
      assert Presses(events, depth) == Presses(events[1..], depth);
      RunSends(Step(s, events[0]).next, events[1..], depth);
    }
  }

  /** `RunSends` for a run that starts with F6. */
  lemma {:induction false} SendsOnSend(s: Session, events: seq<Event>, depth: nat)
    requires Valid(s) && |events| > 0 && events[0] == Send
    ensures Presses(events, depth) == |Run(s, events).sent| + Pending(Run(s, events).rest, depth)
    decreases |events|, 0
  {
    RunOnSend(s, events);
    var inner := Run(Fresh, events[1..]);
    RunSends(Fresh, events[1..], depth + 1);
    var outer := Trace([], s, false, []);
    if inner.exited {
      outer := Run(s.(record := Form.EmptyCommit), inner.rest);
      RunSends(s.(record := Form.EmptyCommit), inner.rest, depth);
    }
    SendsCount(Run(s, events), inner, outer, events, depth);
  }

  /** The counting step of `SendsOnSend`, over the traces of the inner and
      the resumed form. */
  lemma SendsCount(t: Trace, inner: Trace, outer: Trace, events: seq<Event>, depth: nat)
    requires |events| > 0 && events[0] == Send
    requires Presses(events[1..], depth + 1) == |inner.sent| + Presses(inner.rest, depth)
    requires !inner.exited ==> inner.rest == [] && t.rest == [] && |t.sent| == 1 + |inner.sent|
    requires inner.exited ==> Presses(inner.rest, depth) == |outer.sent| + Pending(outer.rest, depth)
    requires inner.exited ==> t.rest == outer.rest && |t.sent| == 1 + |inner.sent| + |outer.sent|
    ensures Presses(events, depth) == |t.sent| + Pending(t.rest, depth)
  {
    assert Presses(events, depth) == 1 + Presses(events[1..], depth + 1);
  }

  /** A run that starts with Esc closes the form at once. */
  lemma RunOnEscape(s: Session, events: seq<Event>)
    requires Valid(s) && |events| > 0 && events[0] == Escape
    ensures Run(s, events) == Trace([], s, true, events[1..])
  {
  }

  /** A run that starts with a key other than Esc and F6 goes on from the
      state that key leads to. */
  lemma RunOnKey(s: Session, events: seq<Event>)
    requires Valid(s) && |events| > 0 && events[0] != Escape && events[0] != Send
    ensures Step(s, events[0]).Stay?
    ensures Run(s, events) == Run(Step(s, events[0]).next, events[1..])
  {
  }

  /** A run that starts with F6 commits the record, lets a fresh form read
      the keys up to its Esc, then goes on with the record emptied. */
  lemma RunOnSend(s: Session, events: seq<Event>)
    requires Valid(s) && |events| > 0 && events[0] == Send
    ensures Valid(Fresh)
    ensures !Run(Fresh, events[1..]).exited ==>
              Run(s, events) == Run(Fresh, events[1..]).(sent := [s.record] + Run(Fresh, events[1..]).sent)
    ensures Run(Fresh, events[1..]).exited ==>
              Run(s, events) == Run(s.(record := Form.EmptyCommit), Run(Fresh, events[1..]).rest).(sent :=
                [s.record] + Run(Fresh, events[1..]).sent + Run(s.(record := Form.EmptyCommit), Run(Fresh, events[1..]).rest).sent)
  {
    FreshSynced();
  }

  /** A commit sends the record as it stands; when the last key was an
      edit, that is the projection of every area's current lines. */
  lemma SendAfterInput(s: Session, lines: seq<string>)
    requires Valid(s)
    ensures Run(s, [Input(lines), Send]).sent == [Step(s, Input(lines)).next.record]
    ensures Synced(Step(s, Input(lines)).next)
  {
    var next := Step(s, Input(lines)).next;
    assert [Input(lines), Send][1..] == [Send];
    assert Run(s, [Input(lines), Send]) == Run(next, [Send]);
    assert [Send][1..] == [];
  }

  /** F6 twice: the first commits the record, the second is read by the
      new form the first one opened, which commits its empty record and
      opens yet another fresh form. */
  lemma SendTwice(s: Session)
    requires Valid(s)
    ensures Run(s, [Send, Send]).sent == [s.record, Form.EmptyCommit]
    ensures Run(s, [Send, Send]).last == Fresh
  {
    assert [Send, Send][1..] == [Send];
    assert [Send][1..] == [];
  }

  /** Closing the form a commit opened brings back the form that
      committed, with its lines as they were and an empty record. */
  lemma SendThenClose(s: Session)
    requires Valid(s)
    ensures Run(s, [Send, Escape]) == Trace([s.record], s.(record := Form.EmptyCommit), false, [])
  {
    assert [Send, Escape][1..] == [Escape];
    assert [Escape][1..] == [];
  }

  /** Back in the form that committed, F6 commits the empty record although
      the lines are still there: F6, Esc, F6, Esc, Esc sends the record and
      then the empty record, and the last Esc closes the form. */
  lemma ResumeSendsEmpty(s: Session)
    requires Valid(s)
    ensures Run(s, [Send, Escape, Send, Escape, Escape]).sent == [s.record, Form.EmptyCommit]
    ensures Run(s, [Send, Escape, Send, Escape, Escape]).exited
  {
    var e := [Send, Escape, Send, Escape, Escape];
    var r := s.(record := Form.EmptyCommit);
    assert e[1..] == [Escape, Send, Escape, Escape];
    assert e[1..][1..] == [Send, Escape, Escape];
    assert Run(Fresh, e[1..]) == Trace([], Fresh, true, [Send, Escape, Escape]);
    assert [Send, Escape, Escape][1..] == [Escape, Escape];
    assert [Escape, Escape][1..] == [Escape];
    assert Run(Fresh, [Escape, Escape]) == Trace([], Fresh, true, [Escape]);
    assert Run(r, [Send, Escape, Escape]).sent == [Form.EmptyCommit];
  }
}
