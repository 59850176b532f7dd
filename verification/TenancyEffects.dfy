/**
 * What the sessions of a table do to it, told from their commands and answers alone: a
 * transaction is the list of changes its accepted statements made to what it saw.
 */
module TenancyEffects {
  import opened Base
  import opened Tenancy

  /** What one statement changes: a new value, or None for a removed row. */
  type Change = map<Key, Option<Value>>

  function Applied(rows: Rows, change: Change): (r: Rows)
    ensures forall k :: k in r <==> if k in change then change[k].Some? else k in rows
    ensures forall k :: k in r ==> r[k] == if k in change then change[k].value else rows[k]
  {
    (map k | k in rows && k !in change :: rows[k]) + (map k | k in change && change[k].Some? :: change[k].value)
  }

  /** The changes one after the other. */
  function Replay(rows: Rows, changes: seq<Change>): Rows {
    if changes == [] then rows else Applied(Replay(rows, changes[..|changes| - 1]), changes[|changes| - 1])
  }

  /** What a session has done since its BEGIN; `refused` once a statement of it was. */
  datatype Story = Story(open: bool, refused: bool, org: Option<Org>, changes: seq<Change>)

  const CLOSED: Story := Story(false, false, None, [])

  /** What its next statement sees before the policy: the table with its own changes. */
  function Sees(table: Rows, story: Story): Rows {
    Replay(table, story.changes)
  }

  /** Keys of the rows of its org that satisfy the condition. */
  function Hit(view: Rows, org: Option<Org>, where: (Key, Value) -> bool): set<Key> {
    set k | k in view && org == Some(k.0) && where(k, view[k])
  }

  function Wrote(view: Rows, org: Option<Org>, stmt: Stmt): Change {
    match stmt
    case Insert(o, id, value) => map[(o, id) := Some(value)]
    case Update(where, change) => map k | k in Hit(view, org, where) && k in view :: Some(change(view[k]))
    case Delete(where) => map k | k in Hit(view, org, where) :: None
    case _ => map[]
  }

  /** The answer that a statement deserves, given what the transaction sees. */
  function Deserves(shape: KeyShape, view: Rows, story: Story, stmt: Stmt): Answer {
    if story.refused then Refused
    else
      match stmt
      case Select(where) => Found(map k | k in Hit(view, story.org, where) && k in view :: view[k])
      case Insert(o, id, _) =>
        if story.org == Some(o) && (forall k :: k in view && k.1 == id ==> shape == PerOrg && k.0 != o)
        then Changed({(o, id)}) else Refused
      case Update(where, _) => Changed(Hit(view, story.org, where))
      case Delete(where) => Changed(Hit(view, story.org, where))
      case Reassign(where, o) =>
        var hit := Hit(view, story.org, where);
        if hit == {} || story.org == Some(o) then Changed(hit) else Refused
  }

  function Told(story: Story, view: Rows, org: Org, cmd: Cmd, answer: Answer): Story {
    match cmd
    case Begin => if story.open then story else CLOSED.(open := true)
    case SetLocalOrg => if story.open && !story.refused then story.(org := Some(org)) else story
    case Run(stmt) =>
      if !story.open then story
      else if answer == Refused then story.(refused := true)
      else story.(changes := story.changes + [Wrote(view, story.org, stmt)])
    case Commit => CLOSED
    case Rollback => CLOSED
  }

  /** What a command makes of the table: the COMMIT of a transaction with no refusal lands its changes. */
  function Lands(story: Story, cmd: Cmd): seq<Change> {
    if cmd.Commit? && story.open && !story.refused then story.changes else []
  }

  // ---- stories and transactions ----

  function Merged(changes: seq<Change>): Change {
    if changes == [] then map[] else Merged(changes[..|changes| - 1]) + changes[|changes| - 1]
  }

  ghost predicate Fits(tx: Tx, story: Story) {
    match tx
    case NoTx => story == CLOSED
    case Open(org, aborted, writes) =>
      story.open && story.org == org && story.refused == aborted && writes == Merged(story.changes)
  }

  lemma OverlayOfNothing(table: Rows)
    ensures Overlay(table, map[]) == table
  {
  }

  lemma OverlayThen(table: Rows, writes: Change, change: Change)
    ensures Overlay(table, writes + change) == Applied(Overlay(table, writes), change)
  {
    var a, b := Overlay(table, writes + change), Applied(Overlay(table, writes), change);
    forall k: Key
      ensures k in a <==> k in b
      ensures k in a ==> a[k] == b[k]
    {
    }
  }

  lemma {:induction false} OverlayIsReplay(table: Rows, changes: seq<Change>)
    ensures Overlay(table, Merged(changes)) == Replay(table, changes)
  {
    if changes == [] {
      OverlayOfNothing(table);
    } else {
      var n := |changes| - 1;
      OverlayIsReplay(table, changes[..n]);
      OverlayThen(table, Merged(changes[..n]), changes[n]);
    }
  }

  lemma MergedSnoc(changes: seq<Change>, change: Change)
    ensures Merged(changes + [change]) == Merged(changes) + change
  {
    assert (changes + [change])[..|changes|] == changes;
  }

  lemma {:induction false} ReplayTwice(table: Rows, a: seq<Change>, b: seq<Change>)
    ensures Replay(table, a + b) == Replay(Replay(table, a), b)
  {
    if b == [] {
      assert a + b == a;
    } else {
      var n := |b| - 1;
      assert (a + b)[..|a + b| - 1] == a + b[..n];
      ReplayTwice(table, a, b[..n]);
    }
  }

  /** The visible rows of a transaction are its org's rows of what its story sees. */
  lemma VisibleIsSeen(table: Rows, tx: Tx, story: Story, where: (Key, Value) -> bool)
    requires Fits(tx, story)
    ensures var view := Sees(table, story);
            var hit := Matching(Visible(table, tx), where);
            hit.Keys == Hit(view, story.org, where) && forall k :: k in hit ==> hit[k] == view[k]
  {
    OverlayIsReplay(table, story.changes);
  }

  lemma KeyTakenInView(shape: KeyShape, table: Rows, tx: Tx, story: Story, o: Org, id: string)
    requires Fits(tx, story) && tx.Open?
    ensures KeyTaken(shape, table, tx, (o, id)) <==>
              !(forall k :: k in Sees(table, story) && k.1 == id ==> shape == PerOrg && k.0 != o)
  {
    OverlayIsReplay(table, story.changes);
    var view := Sees(table, story);
    if KeyTaken(shape, table, tx, (o, id)) {
      if shape == PerOrg {
        assert (o, id) in view;
      } else {
        var k :| k in view && k.1 == id;
      }
    } else {
      forall k | k in view && k.1 == id ensures shape == PerOrg && k.0 != o {
        assert k == (k.0, id);
      }
    }
  }

  /** Every statement is answered as it deserves. */
  lemma StatementAnswer(shape: KeyShape, table: Rows, tx: Tx, story: Story, stmt: Stmt)
    requires Fits(tx, story)
    ensures Execute(shape, table, tx, stmt).1 == Deserves(shape, Sees(table, story), story, stmt)
  {
    var view := Sees(table, story);
    match stmt
    case Select(where) =>
      VisibleIsSeen(table, tx, story, where);
      assert Matching(Visible(table, tx), where) == map k | k in Hit(view, story.org, where) && k in view :: view[k];
    case Insert(o, id, _) =>
      if tx.Open? { KeyTakenInView(shape, table, tx, story, o, id); }
    case Update(where, _) => VisibleIsSeen(table, tx, story, where);
    case Delete(where) => VisibleIsSeen(table, tx, story, where);
    case Reassign(where, _) => VisibleIsSeen(table, tx, story, where);
  }

  /** An accepted statement has written what the story says. */
  lemma WritesAreTold(shape: KeyShape, table: Rows, tx: Tx, story: Story, stmt: Stmt)
    requires Fits(tx, story) && tx.Open? && Execute(shape, table, tx, stmt).1 != Refused
    ensures var wrote := Wrote(Sees(table, story), story.org, stmt);
            Execute(shape, table, tx, stmt).0 == tx.(writes := tx.writes + wrote)
  {
    match stmt
    case Update(where, change) => VisibleIsSeen(table, tx, story, where);
    case Delete(where) => VisibleIsSeen(table, tx, story, where);
    case Select(_) => assert tx.writes + map[] == tx.writes;
    case Reassign(_, _) => assert tx.writes + map[] == tx.writes;
    case Insert(_, _, _) =>
  }

  /** A refused one has aborted its transaction. */
  lemma RefusalAborts(shape: KeyShape, table: Rows, tx: Tx, stmt: Stmt)
    requires Execute(shape, table, tx, stmt).1 == Refused
    ensures Execute(shape, table, tx, stmt).0 == Abort(tx)
  {
  }

  /** Every statement goes into the story as what it wrote, or as a refusal. */
  lemma StatementStory(shape: KeyShape, table: Rows, tx: Tx, story: Story, org: Org, stmt: Stmt)
    requires Fits(tx, story)
    ensures var (tx', answer) := Execute(shape, table, tx, stmt);
            Fits(tx', Told(story, Sees(table, story), org, Run(stmt), answer))
  {
    var answer := Execute(shape, table, tx, stmt).1;
    if tx.NoTx? {
      StatementOutside(shape, table, stmt);
    } else if answer == Refused {
      RefusalAborts(shape, table, tx, stmt);
    } else {
      WritesAreTold(shape, table, tx, story, stmt);
      MergedSnoc(story.changes, Wrote(Sees(table, story), story.org, stmt));
    }
  }

  lemma StatementOutside(shape: KeyShape, table: Rows, stmt: Stmt)
    ensures Execute(shape, table, NoTx, stmt).0 == NoTx
  {
  }

  // ---- one turn ----

  ghost predicate AllFit(s: System, stories: seq<Story>) {
    |stories| == |s.sessions| && forall i :: 0 <= i < |stories| ==> Fits(s.sessions[i].tx, stories[i])
  }

  function Command(c: Session): Cmd {
    c.program(c.answers)
  }

  /** The answer that session i gets at its turn. */
  function AnswerTo(shape: KeyShape, s: System, i: nat): Answer
    requires i < |s.sessions|
  {
    var answers := Step(shape, s, i).sessions[i].answers;
    answers[|answers| - 1]
  }

  function NextStories(shape: KeyShape, s: System, stories: seq<Story>, i: nat): (r: seq<Story>)
    requires i < |s.sessions| == |stories|
    ensures |r| == |stories|
  {
    stories[i := Told(stories[i], Sees(s.table, stories[i]), s.sessions[i].org, Command(s.sessions[i]),
                      AnswerTo(shape, s, i))]
  }

  /**
   * One turn changes the table exactly by what it lands: nothing, unless it is the
   * COMMIT of a transaction none of whose statements was refused; and a statement is
   * answered exactly from the rows of its org among the committed ones overlaid by the
   * transaction's own changes.
   */
  lemma TurnDoesAsTold(shape: KeyShape, s: System, stories: seq<Story>, i: nat)
    requires AllFit(s, stories) && i < |s.sessions|
    ensures AllFit(Step(shape, s, i), NextStories(shape, s, stories, i))
    ensures Step(shape, s, i).table == Replay(s.table, Lands(stories[i], Command(s.sessions[i])))
    ensures match Command(s.sessions[i])
            case Run(stmt) => AnswerTo(shape, s, i) == Deserves(shape, Sees(s.table, stories[i]), stories[i], stmt)
            case _ => AnswerTo(shape, s, i) == Done
  {
    var c, story := s.sessions[i], stories[i];
    match Command(c)
    case Run(stmt) =>
      StatementAnswer(shape, s.table, c.tx, story, stmt);
      StatementStory(shape, s.table, c.tx, story, c.org, stmt);
    case Commit => OverlayIsReplay(s.table, story.changes);
    case _ =>
  }

  // ---- whole runs ----

  /** The changes that landed in the course of the schedule, in order. */
  function Landed(shape: KeyShape, s: System, stories: seq<Story>, schedule: seq<nat>): seq<Change>
    requires |stories| == |s.sessions|
    decreases |schedule|
  {
    if schedule == [] then []
    else if schedule[0] >= |s.sessions| then Landed(shape, s, stories, schedule[1..])
    else
      Lands(stories[schedule[0]], Command(s.sessions[schedule[0]]))
      + Landed(shape, Step(shape, s, schedule[0]), NextStories(shape, s, stories, schedule[0]), schedule[1..])
  }

  lemma {:induction false} RunDoesAsTold(shape: KeyShape, s: System, stories: seq<Story>, schedule: seq<nat>)
    requires AllFit(s, stories)
    ensures Interleave(shape, s, schedule).table == Replay(s.table, Landed(shape, s, stories, schedule))
    decreases |schedule|
  {
    if schedule != [] {
      var i, rest := schedule[0], schedule[1..];
      if i < |s.sessions| {
        var s1, next := Step(shape, s, i), NextStories(shape, s, stories, i);
        TurnDoesAsTold(shape, s, stories, i);
        RunDoesAsTold(shape, s1, next, rest);
        ReplayTwice(s.table, Lands(stories[i], Command(s.sessions[i])), Landed(shape, s1, next, rest));
      } else {
        RunDoesAsTold(shape, s, stories, rest);
      }
    }
  }

  /**
   * Sessions that start outside any transaction, interleaved in any way: the table at
   * the end is the one at the start with the changes of the committed transactions
   * alone, whole and in the order of their COMMITs. What was rolled back, or was in a
   * transaction with a refused statement, or is not committed yet, is not in it.
   */
  lemma TableIsTheCommittedChanges(shape: KeyShape, s: System, schedule: seq<nat>)
    requires forall i :: 0 <= i < |s.sessions| ==> s.sessions[i].tx.NoTx?
    ensures Interleave(shape, s, schedule).table
         == Replay(s.table, Landed(shape, s, seq(|s.sessions|, _ => CLOSED), schedule))
  {
    RunDoesAsTold(shape, s, seq(|s.sessions|, _ => CLOSED), schedule);
  }
}
