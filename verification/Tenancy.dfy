/**
 * Tenant non-interference under the row policy `org_id = current_setting('app.current_org_id')`,
 * applied to reads (USING) and writes (WITH CHECK) alike.
 *
 * Sessions run scoped programs against one table. A program chooses each command from
 * the results it has seen; commands of different sessions interleave freely.
 */
module Tenancy {
  import opened Base

  type Org = string
  type Key = (Org, string)
  type Value = int
  type Rows = map<Key, Value>

  /** The table's primary key: (org_id, id), or the id alone. */
  datatype KeyShape = PerOrg | IdAlone

  datatype Stmt =
    | Select(where: (Key, Value) -> bool)
    | Insert(org: Org, id: string, value: Value)
    | Update(where: (Key, Value) -> bool, change: Value -> Value)
    | Reassign(where: (Key, Value) -> bool, org: Org)
    | Delete(where: (Key, Value) -> bool)

  datatype Cmd = Begin | SetLocalOrg | Run(stmt: Stmt) | Commit | Rollback

  datatype Answer = Done | Found(rows: Rows) | Changed(keys: set<Key>) | Refused

  /** `org` is the transaction-local setting; `writes` overlays the table until COMMIT (None: deleted). */
  datatype Tx = NoTx | Open(org: Option<Org>, aborted: bool, writes: map<Key, Option<Value>>)

  datatype Session = Session(org: Org, program: seq<Answer> -> Cmd, tx: Tx, answers: seq<Answer>)

  datatype System = System(table: Rows, sessions: seq<Session>)

  // ---- one statement ----

  function Overlay(table: Rows, writes: map<Key, Option<Value>>): Rows {
    map k | k in table.Keys + writes.Keys && (k in writes ==> writes[k].Some?) ::
      if k in writes then writes[k].value else table[k]
  }

  /** Rows the policy lets the transaction see: none when the setting is missing. */
  function Visible(table: Rows, tx: Tx): Rows {
    if tx.NoTx? || tx.org.None? then map[]
    else
      var all := Overlay(table, tx.writes);
      map k | k in all && k.0 == tx.org.value :: all[k]
  }

  function Matching(rows: Rows, where: (Key, Value) -> bool): Rows {
    map k | k in rows && where(k, rows[k]) :: rows[k]
  }

  function Abort(tx: Tx): Tx {
    if tx.Open? then tx.(aborted := true) else tx
  }

  function Write(tx: Tx, writes: map<Key, Option<Value>>): Tx {
    if tx.Open? then tx.(writes := tx.writes + writes) else tx
  }

  /** The unique index of the primary key spans the whole table, whatever the policy shows. */
  predicate KeyTaken(shape: KeyShape, table: Rows, tx: Tx, k: Key)
    requires tx.Open?
  {
    var all := Overlay(table, tx.writes);
    match shape
    case PerOrg => k in all
    case IdAlone => exists k' :: k' in all && k'.1 == k.1
  }

  predicate Writable(tx: Tx, org: Org) {
    tx.Open? && tx.org == Some(org)
  }

  function Execute(shape: KeyShape, table: Rows, tx: Tx, stmt: Stmt): (Tx, Answer) {
    if tx.Open? && tx.aborted then (tx, Refused)
    else
      var seen := Visible(table, tx);
      match stmt
      case Select(where) => (tx, Found(Matching(seen, where)))
      case Insert(org, id, value) =>
        if !Writable(tx, org) || KeyTaken(shape, table, tx, (org, id)) then (Abort(tx), Refused)
        else (Write(tx, map[(org, id) := Some(value)]), Changed({(org, id)}))
      case Update(where, change) =>
        var hit := Matching(seen, where);
        (Write(tx, map k | k in hit :: Some(change(hit[k]))), Changed(hit.Keys))
      case Reassign(where, org) =>
        var hit := Matching(seen, where);
        if hit != map[] && !Writable(tx, org) then (Abort(tx), Refused) else (tx, Changed(hit.Keys))
      case Delete(where) =>
        var hit := Matching(seen, where);
        (Write(tx, map k | k in hit :: None), Changed(hit.Keys))
  }

  /** One command of a session: the new table, transaction and answer. */
  function Perform(shape: KeyShape, table: Rows, tx: Tx, org: Org, cmd: Cmd): (Rows, Tx, Answer) {
    match cmd
    case Begin => (table, if tx.NoTx? then Open(None, false, map[]) else tx, Done)
    case SetLocalOrg => (table, if tx.Open? && !tx.aborted then tx.(org := Some(org)) else tx, Done)
    case Run(stmt) => var (tx', answer) := Execute(shape, table, tx, stmt); (table, tx', answer)
    case Commit => (if tx.Open? && !tx.aborted then Overlay(table, tx.writes) else table, NoTx, Done)
    case Rollback => (table, NoTx, Done)
  }

  function Step(shape: KeyShape, s: System, i: nat): System
    requires i < |s.sessions|
  {
    var c := s.sessions[i];
    var (table, tx, answer) := Perform(shape, s.table, c.tx, c.org, c.program(c.answers));
    System(table, s.sessions[i := c.(tx := tx, answers := c.answers + [answer])])
  }

  function Interleave(shape: KeyShape, s: System, schedule: seq<nat>): System
    decreases |schedule|
  {
    if schedule == [] then s
    else if schedule[0] < |s.sessions| then Interleave(shape, Step(shape, s, schedule[0]), schedule[1..])
    else Interleave(shape, s, schedule[1..])
  }

  /** The turns of the sessions scoped to org a. */
  function TurnsOf(s: System, schedule: seq<nat>, a: Org): seq<nat> {
    if schedule == [] then []
    else
      var rest := TurnsOf(s, schedule[1..], a);
      if schedule[0] < |s.sessions| && s.sessions[schedule[0]].org == a then [schedule[0]] + rest else rest
  }

  // ---- non-interference ----

  /** Every transaction is set to its session's org (or to none) and has only written that org's rows. */
  ghost predicate Scoped(s: System) {
    forall i :: 0 <= i < |s.sessions| ==> ScopedTx(s.sessions[i].tx, s.sessions[i].org)
  }

  ghost predicate ScopedTx(tx: Tx, org: Org) {
    tx.Open? ==> (tx.org.Some? ==> tx.org.value == org) && forall k :: k in tx.writes ==> k.0 == org
  }

  ghost predicate SameRows(a: Org, t: Rows, u: Rows) {
    forall k: Key :: k.0 == a ==> (k in t <==> k in u) && (k in t && k in u ==> t[k] == u[k])
  }

  /** To org a's sessions the two systems are the same: same rows of a, same transactions, same answers. */
  ghost predicate SameFor(a: Org, s: System, t: System) {
    && |s.sessions| == |t.sessions|
    && SameRows(a, s.table, t.table)
    && forall i :: 0 <= i < |s.sessions| ==>
         s.sessions[i].org == t.sessions[i].org && (s.sessions[i].org == a ==> s.sessions[i] == t.sessions[i])
  }

  lemma ExecuteStaysScoped(shape: KeyShape, table: Rows, tx: Tx, org: Org, stmt: Stmt)
    requires ScopedTx(tx, org)
    ensures ScopedTx(Execute(shape, table, tx, stmt).0, org)
  {
  }

  lemma StepStaysScoped(shape: KeyShape, s: System, i: nat)
    requires Scoped(s) && i < |s.sessions|
    ensures Scoped(Step(shape, s, i))
  {
    var c := s.sessions[i];
    var cmd := c.program(c.answers);
    if cmd.Run? {
      ExecuteStaysScoped(shape, s.table, c.tx, c.org, cmd.stmt);
    }
  }

  /** Another org's step changes nothing org a can see. */
  lemma OtherStep(shape: KeyShape, a: Org, s: System, i: nat)
    requires Scoped(s) && i < |s.sessions| && s.sessions[i].org != a
    ensures SameFor(a, Step(shape, s, i), s)
  {
  }

  lemma SameVisible(a: Org, t: Rows, u: Rows, tx: Tx)
    requires SameRows(a, t, u) && ScopedTx(tx, a)
    ensures Visible(t, tx) == Visible(u, tx)
    ensures tx.Open? ==> SameRows(a, Overlay(t, tx.writes), Overlay(u, tx.writes))
  {
  }

  /** The key of the INSERT that a session runs next, if it does and the policy admits the row. */
  function Inserting(c: Session): (k: Option<Key>)
    ensures k.Some? ==> c.tx.Open? && !c.tx.aborted && c.tx.org == Some(k.value.0)
  {
    if c.tx.Open? && !c.tx.aborted then
      match c.program(c.answers)
      case Run(Insert(org, id, _)) => if Writable(c.tx, org) then Some((org, id)) else None
      case _ => None
    else None
  }

  /** The key that the session inserts next is taken in both tables or in neither. */
  ghost predicate SameTaken(shape: KeyShape, t: Rows, u: Rows, c: Session) {
    Inserting(c).Some? ==>
      (KeyTaken(shape, t, c.tx, Inserting(c).value) <==> KeyTaken(shape, u, c.tx, Inserting(c).value))
  }

  /** Then its command answers alike on tables that agree on its org's rows, and leaves them in agreement. */
  lemma SamePerform(shape: KeyShape, a: Org, t: Rows, u: Rows, c: Session)
    requires c.org == a && SameRows(a, t, u) && ScopedTx(c.tx, a) && SameTaken(shape, t, u, c)
    ensures var (t', tx', answer) := Perform(shape, t, c.tx, a, c.program(c.answers));
            var (u', tx'', answer') := Perform(shape, u, c.tx, a, c.program(c.answers));
            SameRows(a, t', u') && tx' == tx'' && answer == answer'
  {
    SameVisible(a, t, u, c.tx);
  }

  lemma SameStep(shape: KeyShape, a: Org, s: System, t: System, i: nat)
    requires SameFor(a, s, t) && Scoped(s) && i < |s.sessions| && s.sessions[i].org == a
    requires SameTaken(shape, s.table, t.table, s.sessions[i])
    ensures SameFor(a, Step(shape, s, i), Step(shape, t, i))
  {
    assert s.sessions[i] == t.sessions[i];
    SamePerform(shape, a, s.table, t.table, s.sessions[i]);
  }

  /** With the org in the key, the rows of other orgs take none of a's keys. */
  lemma OwnKeysOnly(a: Org, t: Rows, u: Rows, c: Session)
    requires c.org == a && SameRows(a, t, u) && ScopedTx(c.tx, a)
    ensures SameTaken(PerOrg, t, u, c)
  {
    SameVisible(a, t, u, c.tx);
  }

  lemma {:induction false} Simulate(a: Org, s: System, t: System, schedule: seq<nat>)
    requires SameFor(a, s, t) && Scoped(s)
    ensures SameFor(a, Interleave(PerOrg, s, schedule), Interleave(PerOrg, t, TurnsOf(s, schedule, a)))
    decreases |schedule|
  {
    if schedule != [] {
      var i := schedule[0];
      if i < |s.sessions| {
        var s1 := Step(PerOrg, s, i);
        StepStaysScoped(PerOrg, s, i);
        TurnsKeepOrgs(s, s1, schedule[1..], a);
        if s.sessions[i].org == a {
          OwnKeysOnly(a, s.table, t.table, s.sessions[i]);
          SameStep(PerOrg, a, s, t, i);
          assert TurnsOf(s, schedule, a)[1..] == TurnsOf(s, schedule[1..], a);
          Simulate(a, s1, Step(PerOrg, t, i), schedule[1..]);
        } else {
          OtherStep(PerOrg, a, s, i);
          Simulate(a, s1, t, schedule[1..]);
        }
      } else {
        Simulate(a, s, t, schedule[1..]);
      }
    }
  }

  lemma {:induction false} TurnsKeepOrgs(s: System, s1: System, schedule: seq<nat>, a: Org)
    requires |s.sessions| == |s1.sessions|
    requires forall i :: 0 <= i < |s.sessions| ==> s.sessions[i].org == s1.sessions[i].org
    ensures TurnsOf(s, schedule, a) == TurnsOf(s1, schedule, a)
  {
    if schedule != [] {
      TurnsKeepOrgs(s, s1, schedule[1..], a);
    }
  }

  /** Whatever the others do, org a gets the answers and the final rows it would get running alone. */
  ghost predicate NonInterfering(shape: KeyShape, s: System, schedule: seq<nat>, a: Org) {
    SameFor(a, Interleave(shape, s, schedule), Interleave(shape, s, TurnsOf(s, schedule, a)))
  }

  lemma NonInterference(s: System, schedule: seq<nat>, a: Org)
    requires Scoped(s)
    ensures NonInterfering(PerOrg, s, schedule, a)
  {
    Simulate(a, s, s, schedule);
  }

  // ---- a table keyed by the id alone ----

  /** A row of another org holds the id. */
  ghost predicate HeldElsewhere(rows: Rows, a: Org, id: string) {
    exists k :: k in rows && k.0 != a && k.1 == id
  }

  /**
   * The session is about to insert an id that its org does not hold itself and that
   * another org holds now but did not at the start, or held then and holds no longer.
   */
  ghost predicate Disturbed(now: Rows, start: Rows, c: Session) {
    && Inserting(c).Some?
    && Inserting(c).value !in Overlay(now, c.tx.writes)
    && HeldElsewhere(now, c.org, Inserting(c).value.1) != HeldElsewhere(start, c.org, Inserting(c).value.1)
  }

  /** No insert of org a's is disturbed when its turn comes. */
  ghost predicate NeverDisturbed(s: System, start: Rows, schedule: seq<nat>, a: Org)
    decreases |schedule|
  {
    schedule == [] ||
    if schedule[0] >= |s.sessions| then NeverDisturbed(s, start, schedule[1..], a)
    else
      && (s.sessions[schedule[0]].org == a ==> !Disturbed(s.table, start, s.sessions[schedule[0]]))
      && NeverDisturbed(Step(IdAlone, s, schedule[0]), start, schedule[1..], a)
  }

  ghost predicate SameElsewhere(a: Org, t: Rows, u: Rows) {
    forall k: Key :: k.0 != a ==> (k in t <==> k in u)
  }

  /** An id is taken by a row of the org's own or by one of another org. */
  lemma IdTaken(table: Rows, tx: Tx, a: Org, id: string)
    requires tx.Open? && ScopedTx(tx, a)
    ensures KeyTaken(IdAlone, table, tx, (a, id))
            <==> (a, id) in Overlay(table, tx.writes) || HeldElsewhere(table, a, id)
  {
    var all := Overlay(table, tx.writes);
    if HeldElsewhere(table, a, id) {
      var k :| k in table && k.0 != a && k.1 == id;
      assert k in all;
    }
    if k :| k in all && k.1 == id {
      assert k.0 != a ==> k in table;
    }
  }

  lemma TakenAlikeUnlessDisturbed(a: Org, t: Rows, u: Rows, start: Rows, c: Session)
    requires c.org == a && SameRows(a, t, u) && SameElsewhere(a, u, start) && ScopedTx(c.tx, a)
    ensures SameTaken(IdAlone, t, u, c) <==> !Disturbed(t, start, c)
  {
    if Inserting(c).Some? {
      var id := Inserting(c).value.1;
      assert Inserting(c).value == (a, id);
      SameVisible(a, t, u, c.tx);
      IdTaken(t, c.tx, a, id);
      IdTaken(u, c.tx, a, id);
      assert HeldElsewhere(u, a, id) == HeldElsewhere(start, a, id);
    }
  }

  /** Org a's own steps change no row of another org. */
  lemma OwnStep(shape: KeyShape, a: Org, s: System, i: nat)
    requires Scoped(s) && i < |s.sessions| && s.sessions[i].org == a
    ensures SameElsewhere(a, Step(shape, s, i).table, s.table)
  {
  }

  /** Answers are only ever added. */
  lemma {:induction false} AnswersStay(shape: KeyShape, s: System, schedule: seq<nat>, i: nat)
    requires i < |s.sessions|
    ensures var t := Interleave(shape, s, schedule);
            && |t.sessions| == |s.sessions| && t.sessions[i].org == s.sessions[i].org
            && s.sessions[i].answers <= t.sessions[i].answers
    decreases |schedule|
  {
    if schedule != [] {
      AnswersStay(shape, if schedule[0] < |s.sessions| then Step(shape, s, schedule[0]) else s, schedule[1..], i);
    }
  }

  /** A key taken in one of two runs only shows in the answers for good. */
  lemma ClashShows(shape: KeyShape, a: Org, s: System, t: System, i: nat, rest: seq<nat>, rest': seq<nat>)
    requires SameFor(a, s, t) && i < |s.sessions| && s.sessions[i].org == a
    requires !SameTaken(shape, s.table, t.table, s.sessions[i])
    ensures !SameFor(a, Interleave(shape, Step(shape, s, i), rest), Interleave(shape, Step(shape, t, i), rest'))
  {
    var s1, t1, n := Step(shape, s, i), Step(shape, t, i), |s.sessions[i].answers|;
    assert s1.sessions[i].answers[n] != t1.sessions[i].answers[n];
    AnswersStay(shape, s1, rest, i);
    AnswersStay(shape, t1, rest', i);
    var s2, t2 := Interleave(shape, s1, rest), Interleave(shape, t1, rest');
    assert s2.sessions[i].answers[n] != t2.sessions[i].answers[n];
  }

  lemma {:induction false} SimulateUnlessDisturbed(a: Org, s: System, t: System, start: Rows, schedule: seq<nat>)
    requires SameFor(a, s, t) && Scoped(s) && Scoped(t) && SameElsewhere(a, t.table, start)
    ensures SameFor(a, Interleave(IdAlone, s, schedule), Interleave(IdAlone, t, TurnsOf(s, schedule, a)))
            <==> NeverDisturbed(s, start, schedule, a)
    decreases |schedule|
  {
    if schedule != [] {
      var i, rest := schedule[0], schedule[1..];
      if i < |s.sessions| {
        var s1 := Step(IdAlone, s, i);
        StepStaysScoped(IdAlone, s, i);
        TurnsKeepOrgs(s, s1, rest, a);
        if s.sessions[i].org == a {
          assert TurnsOf(s, schedule, a)[1..] == TurnsOf(s, rest, a);
          TakenAlikeUnlessDisturbed(a, s.table, t.table, start, s.sessions[i]);
          if Disturbed(s.table, start, s.sessions[i]) {
            ClashShows(IdAlone, a, s, t, i, rest, TurnsOf(s, rest, a));
          } else {
            SameStep(IdAlone, a, s, t, i);
            StepStaysScoped(IdAlone, t, i);
            OwnStep(IdAlone, a, t, i);
            SimulateUnlessDisturbed(a, s1, Step(IdAlone, t, i), start, rest);
          }
        } else {
          OtherStep(IdAlone, a, s, i);
          SimulateUnlessDisturbed(a, s1, t, start, rest);
        }
      } else {
        SimulateUnlessDisturbed(a, s, t, start, rest);
      }
    }
  }

  /**
   * On a table keyed by the id alone, one run leaves org a undisturbed, in its answers
   * and in its rows, if and only if at each of its inserts of an id that it does not
   * hold itself, a row of another org holds the id exactly if one did at the start.
   */
  lemma IdAloneIsolatesUnlessDisturbed(s: System, schedule: seq<nat>, a: Org)
    requires Scoped(s)
    ensures NonInterfering(IdAlone, s, schedule, a) <==> NeverDisturbed(s, s.table, schedule, a)
  {
    SimulateUnlessDisturbed(a, s, s, s.table, schedule);
  }

  // ---- the key must contain the org ----

  /** runWithOrgScope(org) around one INSERT. */
  function InsertOnce(org: Org): seq<Answer> -> Cmd {
    (answers: seq<Answer>) =>
      if |answers| == 0 then Begin
      else if |answers| == 1 then SetLocalOrg
      else if |answers| == 2 then Run(Insert(org, "id", 1))
      else Commit
  }

  const A: Org := "org_a"
  const B: Org := "org_b"

  /** Two orgs insert the same id into an empty table; session 1 is B's. */
  const CLASH: System := System(map[], [Session(A, InsertOnce(A), NoTx, []), Session(B, InsertOnce(B), NoTx, [])])

  /** Session i after its first three commands, on a table where the key is or is not taken. */
  function AfterInsert(org: Org, taken: bool): Session {
    Session(org, InsertOnce(org),
            if taken then Open(Some(org), true, map[]) else Open(Some(org), false, map[(org, "id") := Some(1)]),
            [Done, Done, if taken then Refused else Changed({(org, "id")})])
  }

  lemma RunsInsert(shape: KeyShape, s: System, i: nat, org: Org, rest: seq<nat>)
    requires i < |s.sessions| && s.sessions[i] == Session(org, InsertOnce(org), NoTx, [])
    ensures var taken := KeyTaken(shape, s.table, Open(Some(org), false, map[]), (org, "id"));
            Interleave(shape, s, [i, i, i] + rest)
            == Interleave(shape, System(s.table, s.sessions[i := AfterInsert(org, taken)]), rest)
  {
    var taken := KeyTaken(shape, s.table, Open(Some(org), false, map[]), (org, "id"));
    var s1 := Step(shape, s, i);
    assert s1.sessions[i] == Session(org, InsertOnce(org), Open(None, false, map[]), [Done]);
    var s2 := Step(shape, s1, i);
    assert s2.sessions[i] == Session(org, InsertOnce(org), Open(Some(org), false, map[]), [Done, Done]);
    var s3 := Step(shape, s2, i);
    assert map[] + map[(org, "id") := Some(1)] == map[(org, "id") := Some(1)];
    assert s3.sessions[i] == AfterInsert(org, taken);
    assert s3 == System(s.table, s.sessions[i := AfterInsert(org, taken)]);
    assert ([i, i, i] + rest)[1..] == [i, i] + rest && ([i, i] + rest)[1..] == [i] + rest && ([i] + rest)[1..] == rest;
    assert Interleave(shape, s, [i, i, i] + rest) == Interleave(shape, s1, [i, i] + rest);
    assert Interleave(shape, s1, [i, i] + rest) == Interleave(shape, s2, [i] + rest);
  }

  ghost predicate FirstIs(s: System, c: Session) {
    s.sessions != [] && s.sessions[0] == c
  }

  const B_COMMITTED: System := System(map[(B, "id") := 1], [CLASH.sessions[0], AfterCommit(B)])

  function AfterCommit(org: Org): Session {
    AfterInsert(org, false).(tx := NoTx, answers := AfterInsert(org, false).answers + [Done])
  }

  lemma BCommits()
    ensures Interleave(IdAlone, CLASH, [1, 1, 1, 1, 0, 0, 0]) == Interleave(IdAlone, B_COMMITTED, [0, 0, 0])
  {
    assert [1, 1, 1] + [1, 0, 0, 0] == [1, 1, 1, 1, 0, 0, 0];
    RunsInsert(IdAlone, CLASH, 1, B, [1, 0, 0, 0]);
    assert Overlay(map[], map[]) == map[];
    var s3 := System(map[], CLASH.sessions[1 := AfterInsert(B, false)]);
    assert [1, 0, 0, 0][1..] == [0, 0, 0];
    assert Step(IdAlone, s3, 1).table == map[(B, "id") := 1];
    assert Step(IdAlone, s3, 1).sessions == B_COMMITTED.sessions;
  }

  /** B's insert commits; then A's insert of the same id is refused. */
  lemma ClashTogether()
    ensures FirstIs(Interleave(IdAlone, CLASH, [1, 1, 1, 1, 0, 0, 0]), AfterInsert(A, true))
  {
    BCommits();
    assert [0, 0, 0] + [] == [0, 0, 0];
    RunsInsert(IdAlone, B_COMMITTED, 0, A, []);
    assert (B, "id") in Overlay(B_COMMITTED.table, map[]);
  }

  lemma ClashAlone()
    ensures FirstIs(Interleave(IdAlone, CLASH, [0, 0, 0]), AfterInsert(A, false))
  {
    assert [0, 0, 0] + [] == [0, 0, 0];
    assert Overlay(map[], map[]) == map[];
    RunsInsert(IdAlone, CLASH, 0, A, []);
  }

  lemma ClashIsScoped()
    ensures Scoped(CLASH)
  {
  }

  lemma OtherAnswersInterfere(shape: KeyShape, s: System, schedule: seq<nat>, a: Org, alone: seq<nat>)
    requires TurnsOf(s, schedule, a) == alone
    requires var t, u := Interleave(shape, s, schedule), Interleave(shape, s, alone);
             && t.sessions != [] && u.sessions != [] && t.sessions[0].org == a
             && t.sessions[0].answers != u.sessions[0].answers
    ensures !NonInterfering(shape, s, schedule, a)
  {
  }

  /** With the id alone as key, a committed row of B that A cannot see makes A's INSERT fail. */
  lemma IdAloneInterferes()
    ensures Scoped(CLASH) && !NonInterfering(IdAlone, CLASH, [1, 1, 1, 1, 0, 0, 0], A)
  {
    ClashTogether();
    ClashAlone();
    TurnsInClash();
    ClashIsScoped();
    assert AfterInsert(A, true).answers[2] != AfterInsert(A, false).answers[2];
    OtherAnswersInterfere(IdAlone, CLASH, [1, 1, 1, 1, 0, 0, 0], A, [0, 0, 0]);
  }

  lemma TurnsInClash()
    ensures TurnsOf(CLASH, [1, 1, 1, 1, 0, 0, 0], A) == [0, 0, 0]
  {
    assert A[4] != B[4];
    assert [1, 1, 1, 1, 0, 0, 0][1..] == [1, 1, 1, 0, 0, 0] && [1, 1, 1, 0, 0, 0][1..] == [1, 1, 0, 0, 0];
    assert [1, 1, 0, 0, 0][1..] == [1, 0, 0, 0] && [1, 0, 0, 0][1..] == [0, 0, 0];
    assert [0, 0, 0][1..] == [0, 0] && [0, 0][1..] == [0] && [0][1..] == [];
    assert TurnsOf(CLASH, [0, 0, 0], A) == [0, 0, 0] by {
      assert TurnsOf(CLASH, [0], A) == [0];
      assert TurnsOf(CLASH, [0, 0], A) == [0, 0];
    }
    assert TurnsOf(CLASH, [1, 1, 0, 0, 0], A) == TurnsOf(CLASH, [1, 0, 0, 0], A) == [0, 0, 0];
  }

  /** The policy isolates tenants on a table exactly when the table's key contains the org. */
  lemma IsolatesExactlyWhenKeyedByOrg(shape: KeyShape)
    ensures (forall s, schedule, a :: Scoped(s) ==> NonInterfering(shape, s, schedule, a)) <==> shape == PerOrg
  {
    forall s, schedule, a | Scoped(s)
      ensures NonInterfering(PerOrg, s, schedule, a)
    {
      NonInterference(s, schedule, a);
    }
    IdAloneInterferes();
  }
}
