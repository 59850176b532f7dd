/** Main results about callers that run at the same time, over every interleaving of their steps. */
module OrgScopeTaskTheorems {
  import opened Base
  import opened OrgScope
  import opened OrgScopeCommitLog
  import opened OrgScopeDiscipline
  import opened OrgScopeWakes
  import opened OrgScopeTasks
  import opened OrgScopeTaskInvariants
  import opened OrgScopeTheorems

  // ---- the invariant of all tasks ----

  /** No two tasks have a connection in common. */
  ghost predicate Apart(a: Task, b: Task) {
    forall k :: k in Clients(a) ==> k !in Clients(b)
  }

  ghost predicate InUse(s: System, k: ClientId) {
    exists i :: 0 <= i < |s.tasks| && k in Clients(s.tasks[i])
  }

  ghost predicate InAppend(s: System, k: ClientId) {
    exists i :: 0 <= i < |s.tasks| && MidAppend(s.tasks[i], k)
  }

  /**
   * Every task is served on connections that it shares with nobody; exactly those are
   * checked out; and wakes delivered and queued match their rows, save those that an
   * append in progress still owes.
   */
  ghost predicate Good(s: System) {
    && AllTidy(s.world) && Woken(s.world)
    && (forall i :: 0 <= i < |s.tasks| ==> TaskServed(s.world, s.tasks[i]))
    && (forall i, j :: 0 <= i < |s.tasks| && 0 <= j < |s.tasks| && i != j ==> Apart(s.tasks[i], s.tasks[j]))
    && (forall k :: 0 <= k < |s.world.clients| && s.world.clients[k].checkedOut ==> InUse(s, k))
    && (forall k :: 0 <= k < |s.world.clients| ==>
         InAppend(s, k) || TxTold(s.world.clients[k].tx, s.world.nextId))
  }

  function Step(s: System, i: nat): System
    requires i < |s.tasks| && InRange(s.world, s.tasks[i])
  {
    var (w, t) := TaskStep(s.world, s.tasks[i]);
    System(w, s.tasks[i := t])
  }

  lemma TurnIsReady(s: System, i: nat)
    requires Good(s) && i < |s.tasks|
    ensures Ready(s.world, s.tasks[i])
  {
    var t := s.tasks[i];
    forall k | 0 <= k < |s.world.clients| && k in Clients(t)
      ensures MidAppend(t, k) || TxTold(s.world.clients[k].tx, s.world.nextId)
    {
      if InAppend(s, k) {
        var j :| 0 <= j < |s.tasks| && MidAppend(s.tasks[j], k);
        AppendIsOwn(s.tasks[j], k);
        assert j != i ==> !Apart(t, s.tasks[j]);
      }
    }
  }

  lemma AppendIsOwn(t: Task, k: ClientId)
    requires MidAppend(t, k)
    ensures k in Clients(t)
  {
    AmbientIsAScope(t.stack);
  }

  lemma InUseIsCheckedOut(w: World, t: Task, k: ClientId)
    requires TaskServed(w, t) && k in Clients(t)
    ensures k < |w.clients| && w.clients[k].checkedOut
  {
    if !(OnOwn(t.control) && t.control.k == k) {
      AllScopesServed(w, t.stack, k);
    }
  }

  /** The step of one task keeps another served. */
  lemma OtherTaskServed(w: World, t: Task, w': World, t': Task, other: Task)
    requires Kept(w, t, w', t') && TaskServed(w, other) && Apart(other, t)
    ensures TaskServed(w', other) && Apart(other, t')
    ensures forall k :: k in Clients(other) ==> w'.clients[k] == w.clients[k]
  {
    forall k | k in Clients(other)
      ensures k < |w.clients| && w.clients[k].checkedOut && w'.clients[k] == w.clients[k] && k !in Clients(t')
    {
      InUseIsCheckedOut(w, other, k);
    }
    ScopesServedApart(w, w', other.stack);
    if Appending(other.control) {
      AmbientIsAScope(other.stack);
      OwesLater(w.clients[AmbientOf(other.stack).value.client].tx, other.control, w.nextId, w'.nextId);
    }
  }

  lemma OwesLater(tx: Tx, c: Control, a: EventId, b: EventId)
    requires Appending(c) && Owes(tx, c, a) && a <= b
    ensures Owes(tx, c, b)
  {
  }

  lemma UseIsKept(s: System, i: nat, w': World, t': Task, k: ClientId)
    requires Good(s) && i < |s.tasks| && Kept(s.world, s.tasks[i], w', t')
    requires k < |w'.clients| && w'.clients[k].checkedOut
    ensures InUse(System(w', s.tasks[i := t']), k)
  {
    var s' := System(w', s.tasks[i := t']);
    if k in Clients(t') {
      assert s'.tasks[i] == t';
    } else {
      var j :| 0 <= j < |s.tasks| && k in Clients(s.tasks[j]);
      assert s'.tasks[j] == s.tasks[j];
    }
  }

  lemma AppendsAreKept(s: System, i: nat, w': World, t': Task, k: ClientId)
    requires i < |s.tasks| && k < |w'.clients| && s.world.nextId <= w'.nextId
    requires || MidAppend(t', k) || TxTold(w'.clients[k].tx, w'.nextId)
             || (&& k < |s.world.clients| && w'.clients[k].tx == s.world.clients[k].tx && k !in Clients(s.tasks[i])
                 && (InAppend(s, k) || TxTold(s.world.clients[k].tx, s.world.nextId)))
    ensures InAppend(System(w', s.tasks[i := t']), k) || TxTold(w'.clients[k].tx, w'.nextId)
  {
    var s' := System(w', s.tasks[i := t']);
    if MidAppend(t', k) {
      assert s'.tasks[i] == t';
    } else if InAppend(s, k) && k !in Clients(s.tasks[i]) {
      var j :| 0 <= j < |s.tasks| && MidAppend(s.tasks[j], k);
      AppendIsOwn(s.tasks[j], k);
      assert s'.tasks[j] == s.tasks[j];
    } else if k < |s.world.clients| && TxTold(s.world.clients[k].tx, s.world.nextId) {
      TxToldLater(s.world.clients[k].tx, s.world.nextId, w'.nextId);
    }
  }

  lemma KeptIsGood(s: System, i: nat, w': World, t': Task)
    requires Good(s) && i < |s.tasks| && Kept(s.world, s.tasks[i], w', t')
    ensures Good(System(w', s.tasks[i := t']))
  {
    var s' := System(w', s.tasks[i := t']);
    forall j | 0 <= j < |s.tasks| && j != i
      ensures TaskServed(w', s'.tasks[j]) && Apart(s'.tasks[j], t') && Apart(t', s'.tasks[j])
    {
      assert Apart(s.tasks[j], s.tasks[i]);
      OtherTaskServed(s.world, s.tasks[i], w', t', s.tasks[j]);
    }
    forall j, l | 0 <= j < |s.tasks| && 0 <= l < |s.tasks| && j != l
      ensures Apart(s'.tasks[j], s'.tasks[l])
    {
      if j != i && l != i {
        assert Apart(s.tasks[j], s.tasks[l]);
      }
    }
    forall k | 0 <= k < |w'.clients|
      ensures w'.clients[k].checkedOut ==> InUse(s', k)
      ensures InAppend(s', k) || TxTold(w'.clients[k].tx, w'.nextId)
    {
      if w'.clients[k].checkedOut { UseIsKept(s, i, w', t', k); }
      AppendsAreKept(s, i, w', t', k);
    }
  }

  /** Every step of every task keeps the invariant. */
  lemma StepKeepsGood(s: System, i: nat)
    requires Good(s) && i < |s.tasks|
    ensures Good(Step(s, i))
  {
    TurnIsReady(s, i);
    TaskStepKept(s.world, s.tasks[i]);
    var (w', t') := TaskStep(s.world, s.tasks[i]);
    KeptIsGood(s, i, w', t');
  }

  // ---- runs ----

  predicate Turns(s: System, schedule: seq<nat>) {
    forall n :: 0 <= n < |schedule| ==> schedule[n] < |s.tasks|
  }

  lemma TurnTaken(s: System, schedule: seq<nat>)
    requires Good(s) && Turns(s, schedule) && schedule != []
    ensures InRange(s.world, s.tasks[schedule[0]])
    ensures Good(Step(s, schedule[0])) && Turns(Step(s, schedule[0]), schedule[1..])
  {
    StepKeepsGood(s, schedule[0]);
  }

  /** The tasks take turns as the schedule says. */
  ghost function Interleave(s: System, schedule: seq<nat>): (r: System)
    requires Good(s) && Turns(s, schedule)
    ensures Good(r) && |r.tasks| == |s.tasks|
    decreases |schedule|
  {
    if schedule == [] then s
    else
      TurnTaken(s, schedule);
      Interleave(Step(s, schedule[0]), schedule[1..])
  }

  /** All callers before their first step. */
  function Callers(w: World, works: seq<Work>): System {
    System(w, seq(|works|, i requires 0 <= i < |works| => Task(Running(works[i]), [])))
  }

  lemma CallersAreGood(w: World, works: seq<Work>)
    requires Idle(w) && Told(w)
    ensures Good(Callers(w, works))
  {
    var s := Callers(w, works);
    forall i | 0 <= i < |s.tasks| ensures Clients(s.tasks[i]) == [] && TaskServed(w, s.tasks[i]) {
      assert s.tasks[i] == Task(Running(works[i]), []);
    }
  }

  // ---- connections ----

  lemma {:induction false} ScopeInStackIsServed(w: World, stack: seq<Frame>, p: nat)
    requires ScopesServed(w, stack) && p < |stack| && stack[p].Scope?
    ensures ScopeServed(w, stack[p]) && stack[p].ambient.client in ScopeClients(stack)
  {
    if p > 0 {
      ScopeInStackIsServed(w, stack[1..], p - 1);
    }
  }

  lemma {:induction false} ScopesOfOneStackDiffer(stack: seq<Frame>, p: nat, q: nat, w: World)
    requires p < q < |stack| && stack[p].Scope? && stack[q].Scope?
    requires ScopesServed(w, stack) && NoDuplicates(ScopeClients(stack))
    ensures stack[p].ambient.client != stack[q].ambient.client
  {
    var below := ScopeClients(stack[1..]);
    if stack[0].Scope? {
      assert ScopeClients(stack) == [stack[0].ambient.client] + below;
      FirstIsNoOther(stack[0].ambient.client, below);
    } else {
      assert ScopeClients(stack) == below;
    }
    if p == 0 {
      ScopeInStackIsServed(w, stack[1..], q - 1);
    } else {
      ScopesOfOneStackDiffer(stack[1..], p - 1, q - 1, w);
    }
  }

  lemma OwnScopesAreDistinct(t: Task)
    requires NoDuplicates(Clients(t))
    ensures NoDuplicates(ScopeClients(t.stack))
  {
    if OnOwn(t.control) {
      FirstIsNoOther(t.control.k, ScopeClients(t.stack));
    } else {
      assert Clients(t) == ScopeClients(t.stack);
    }
  }

  lemma ScopesDiffer(s: System, i: nat, p: nat, j: nat, q: nat)
    requires Good(s) && i < |s.tasks| && j < |s.tasks| && (i, p) != (j, q)
    requires p < |s.tasks[i].stack| && s.tasks[i].stack[p].Scope?
    requires q < |s.tasks[j].stack| && s.tasks[j].stack[q].Scope?
    ensures s.tasks[i].stack[p].ambient.client != s.tasks[j].stack[q].ambient.client
  {
    var t, u := s.tasks[i], s.tasks[j];
    assert TaskServed(s.world, t) && TaskServed(s.world, u);
    if i == j {
      OwnScopesAreDistinct(t);
      ScopesOfOneStackDiffer(t.stack, if p < q then p else q, if p < q then q else p, s.world);
    } else {
      ScopeInStackIsServed(s.world, t.stack, p);
      ScopeInStackIsServed(s.world, u.stack, q);
      assert Apart(t, u);
      assert t.stack[p].ambient.client in Clients(t);
    }
  }

  /**
   * However the callers interleave, any two open scopes, of one caller or of two, have
   * different connections, and each scope's own connection is checked out, alive, in a
   * transaction under the scope's org that holds what the scope stored and nothing else.
   */
  lemma EachScopeHasItsOwnConnection(s: System, schedule: seq<nat>, i: nat, p: nat, j: nat, q: nat)
    requires Good(s) && Turns(s, schedule)
    requires i < |s.tasks| && j < |s.tasks| && (i, p) != (j, q)
    requires var r := Interleave(s, schedule);
             && p < |r.tasks[i].stack| && q < |r.tasks[j].stack|
             && r.tasks[i].stack[p].Scope? && r.tasks[j].stack[q].Scope?
    ensures var r := Interleave(s, schedule);
            var f, g := r.tasks[i].stack[p], r.tasks[j].stack[q];
            && ScopeServed(r.world, f) && ScopeServed(r.world, g)
            && f.ambient.client != g.ambient.client
  {
    var r := Interleave(s, schedule);
    ScopeInStackIsServed(r.world, r.tasks[i].stack, p);
    ScopeInStackIsServed(r.world, r.tasks[j].stack, q);
    ScopesDiffer(r, i, p, j, q);
  }

  /** A step of one caller leaves every connection of the others exactly as it was. */
  lemma OtherCallersAreUntouched(s: System, i: nat, j: nat, k: ClientId)
    requires Good(s) && i < |s.tasks| && j < |s.tasks| && i != j && k in Clients(s.tasks[j])
    ensures k < |s.world.clients| && k < |Step(s, i).world.clients|
    ensures Step(s, i).world.clients[k] == s.world.clients[k] && Step(s, i).tasks[j] == s.tasks[j]
  {
    TurnIsReady(s, i);
    TaskStepKept(s.world, s.tasks[i]);
    var (w', t') := TaskStep(s.world, s.tasks[i]);
    assert Apart(s.tasks[j], s.tasks[i]);
    InUseIsCheckedOut(s.world, s.tasks[j], k);
  }

  // ---- commits ----

  /** The end of the work of a scope comes next. */
  predicate Ends(t: Task) {
    t.control.Returned? && t.stack != [] && t.stack[0].Scope?
  }

  /** What the next step commits: all that the scope stored, if COMMIT succeeds and no query was rejected. */
  function StepCommits(w: World, t: Task): seq<Committed>
    requires InRange(w, t)
  {
    if Ends(t) && t.control.out == Done then
      var f := t.stack[0];
      assert f.ambient.client in ScopeClients(t.stack);
      var c := w.clients[f.ambient.client];
      if Commit(w, f.ambient.client).1 == Done && c.refused == f.refused
      then [Committed(f.stored, Pending(c.tx))] else []
    else []
  }

  lemma EndIsLogged(w: World, t: Task)
    requires Ready(w, t) && Ends(t)
    ensures Logged(w, TaskStep(w, t).0, StepCommits(w, t))
  {
    var k := t.stack[0].ambient.client;
    assert k == ScopeClients(t.stack)[0] && k in Clients(t);
    CommitDelivers(w, k);
    if StepCommits(w, t) == [] {
      LoggedNothing(w, TaskStep(w, t).0);
    } else {
      LoggedOne(w, TaskStep(w, t).0, StepCommits(w, t)[0]);
    }
  }

  lemma StartCommitsNothing(w: World, t: Task, work: Work)
    requires InRange(w, t) && t.control == Running(work)
    ensures var w' := TaskStep(w, t).0; w'.rows == w.rows && w'.delivered == w.delivered
  {
    AmbientIsAScope(t.stack);
    if AmbientOf(t.stack).Some? {
      var k, w0 := AmbientOf(t.stack).value.client, Look(w, AmbientOf(t.stack).value, DepthOf(t.stack));
      match work
      case Insert(tag, org) => InsertOnlyTx(w0, k, Other(tag, org));
      case Append(input) => InsertEventOnlyTx(w0, k, input.org, input.run);
      case Select(_, _, _) => QueryOnlyTx(w0, k);
      case _ =>
    }
  }

  /** Only the end of a scope changes what is durable and delivered. */
  lemma OnlyEndsCommit(w: World, t: Task)
    requires InRange(w, t) && !Ends(t)
    ensures var w' := TaskStep(w, t).0; w'.rows == w.rows && w'.delivered == w.delivered
  {
    if t.control.Running? {
      StartCommitsNothing(w, t, t.control.work);
    }
  }

  /**
   * Whatever steps the others take in between, the end of a scope makes durable all that
   * its own statements stored, or nothing, and delivers exactly the wakes of those rows;
   * no other step makes anything durable or wakes anybody.
   */
  lemma StepIsLogged(s: System, i: nat)
    requires Good(s) && i < |s.tasks|
    ensures Logged(s.world, Step(s, i).world, StepCommits(s.world, s.tasks[i]))
  {
    TurnIsReady(s, i);
    if Ends(s.tasks[i]) {
      EndIsLogged(s.world, s.tasks[i]);
    } else {
      OnlyEndsCommit(s.world, s.tasks[i]);
      LoggedNothing(s.world, Step(s, i).world);
    }
  }

  ghost function CommitsAlong(s: System, schedule: seq<nat>): seq<Committed>
    requires Good(s) && Turns(s, schedule)
    decreases |schedule|
  {
    if schedule == [] then []
    else
      TurnTaken(s, schedule);
      StepCommits(s.world, s.tasks[schedule[0]]) + CommitsAlong(Step(s, schedule[0]), schedule[1..])
  }

  lemma {:induction false} RunIsLogged(s: System, schedule: seq<nat>)
    requires Good(s) && Turns(s, schedule)
    ensures Logged(s.world, Interleave(s, schedule).world, CommitsAlong(s, schedule))
    decreases |schedule|
  {
    if schedule == [] {
      LoggedNothing(s.world, s.world);
    } else {
      var i := schedule[0];
      TurnTaken(s, schedule);
      StepIsLogged(s, i);
      RunIsLogged(Step(s, i), schedule[1..]);
      LoggedTwice(s.world, Step(s, i).world, Interleave(s, schedule).world,
                  StepCommits(s.world, s.tasks[i]), CommitsAlong(Step(s, i), schedule[1..]));
    }
  }

  // ---- the end ----

  predicate Finished(t: Task) {
    t.control.Returned? && t.stack == []
  }

  /** Nobody is left inside a scope once all callers have returned. */
  lemma FinishedCallersLeaveNothing(s: System)
    requires Good(s) && forall i :: 0 <= i < |s.tasks| ==> Finished(s.tasks[i])
    ensures Idle(s.world) && Told(s.world)
  {
    forall k | 0 <= k < |s.world.clients|
      ensures !s.world.clients[k].checkedOut && TxTold(s.world.clients[k].tx, s.world.nextId)
    {
      assert forall i :: 0 <= i < |s.tasks| ==> Clients(s.tasks[i]) == [];
    }
  }

  /** Turns that the work needs at most, whatever fails. */
  function Size(work: Work): nat {
    match work
    case Append(_) => 3
    case Select(_, yes, no) => 1 + Size(yes) + Size(no)
    case Seq(a, b) => 2 + Size(a) + Size(b)
    case Catch(a, b) => 2 + Size(a) + Size(b)
    case InOrg(_, _, body) => 6 + Size(body)
    case InSystem(_, body) => 6 + Size(body)
    case _ => 1
  }

  function TurnsLeft(t: Task): nat {
    FramesLeft(t.stack) +
    match t.control
    case Running(work) => Size(work)
    case Waking(_, _) => 2
    case Announcing(_) => 1
    case Beginning(_, _, _, body) => 5 + Size(body)
    case Setting(_, _, _, body) => 4 + Size(body)
    case RollingBack(_) => 2
    case Releasing(_, _) => 1
    case Returned(_) => 0
  }

  function FramesLeft(stack: seq<Frame>): nat {
    if stack == [] then 0
    else
      FramesLeft(stack[1..]) +
      match stack[0]
      case Then(next) => 1 + Size(next)
      case Handler(handler) => 1 + Size(handler)
      case Scope(_, _, _) => 3
  }

  lemma {:induction false} StoreLeaves(stack: seq<Frame>, rows: seq<Row>)
    ensures FramesLeft(Store(stack, rows)) == FramesLeft(stack)
  {
    if stack != [] {
      StoreLeaves(stack[1..], rows);
      assert Store(stack, rows)[1..] == if stack[0].Scope? then stack[1..] else Store(stack[1..], rows);
    }
  }

  lemma StartUsesATurn(w: World, stack: seq<Frame>, work: Work)
    requires AmbientOf(stack).Some? ==> AmbientOf(stack).value.client < |w.clients|
    ensures TurnsLeft(Start(w, stack, work).1) < TurnsLeft(Task(Running(work), stack))
  {
    var t' := Start(w, stack, work).1;
    match work
    case Insert(tag, org) => StoreLeaves(stack, [Other(tag, org)]);
    case Append(input) => StoreLeaves(stack, [Event(w.nextId, input.org, input.run)]);
    case Seq(_, _) => assert t'.stack[1..] == stack;
    case Catch(_, _) => assert t'.stack[1..] == stack;
    case _ =>
  }

  /** Every turn brings a caller nearer to its end. */
  lemma StepUsesATurn(w: World, t: Task)
    requires InRange(w, t)
    ensures var t' := TaskStep(w, t).1; if Finished(t) then t' == t else TurnsLeft(t') < TurnsLeft(t)
  {
    AmbientIsAScope(t.stack);
    match t.control
    case Running(work) => StartUsesATurn(w, t.stack, work);
    case Setting(_, _, _, _) =>
      var t' := TaskStep(w, t).1;
      assert t'.control.Running? ==> t'.stack[1..] == t.stack;
    case _ =>
  }

  /** A caller that gets as many turns as its work is large has returned, whatever the others do and whatever fails. */
  lemma {:induction false} EveryCallerFinishes(s: System, schedule: seq<nat>, i: nat)
    requires Good(s) && i < |s.tasks| && Turns(s, schedule)
    requires multiset(schedule)[i] >= TurnsLeft(s.tasks[i])
    ensures Finished(Interleave(s, schedule).tasks[i])
    decreases |schedule|
  {
    if schedule == [] {
      NoTurnsLeft(s.tasks[i]);
    } else {
      var n, rest := schedule[0], schedule[1..];
      assert schedule == [n] + rest;
      TurnTaken(s, schedule);
      StepUsesATurn(s.world, s.tasks[i]);
      if n == i && Finished(s.tasks[i]) {
        FinishedStaysFinished(Step(s, n), rest, i);
      } else {
        EveryCallerFinishes(Step(s, n), rest, i);
      }
    }
  }

  lemma NoTurnsLeft(t: Task)
    requires TurnsLeft(t) == 0
    ensures Finished(t)
  {
    assert t.control.Running? ==> Size(t.control.work) > 0;
  }

  lemma {:induction false} FinishedStaysFinished(s: System, schedule: seq<nat>, i: nat)
    requires Good(s) && i < |s.tasks| && Finished(s.tasks[i]) && Turns(s, schedule)
    ensures Finished(Interleave(s, schedule).tasks[i])
    decreases |schedule|
  {
    if schedule != [] {
      TurnTaken(s, schedule);
      FinishedStaysFinished(Step(s, schedule[0]), schedule[1..], i);
    }
  }

  /**
   * Any number of callers with any work, any interleaving, any failures. At every moment
   * the dispatcher's ids are those of the durable well-formed events, in commit order,
   * and each commit has waked for its own rows. When every caller has had as many turns as its
   * work is large, all have returned, every connection is back and no transaction is open.
   */
  lemma ConcurrentCallers(w: World, works: seq<Work>, schedule: seq<nat>)
    requires Idle(w) && Told(w) && forall n :: 0 <= n < |schedule| ==> schedule[n] < |works|
    ensures Good(Callers(w, works))
    ensures var s := Callers(w, works);
            var w' := Interleave(s, schedule).world;
            && EventIds(w'.delivered) == Announced(w'.rows) && RunsMatch(w'.rows, w'.delivered)
            && Logged(w, w', CommitsAlong(s, schedule))
            && ((forall i :: 0 <= i < |works| ==> multiset(schedule)[i] >= Size(works[i])) ==> Idle(w') && Told(w'))
  {
    CallersAreGood(w, works);
    var s := Callers(w, works);
    RunIsLogged(s, schedule);
    if forall i :: 0 <= i < |works| ==> multiset(schedule)[i] >= Size(works[i]) {
      forall i | 0 <= i < |works| ensures Finished(Interleave(s, schedule).tasks[i]) {
        EveryCallerFinishes(s, schedule, i);
      }
      FinishedCallersLeaveNothing(Interleave(s, schedule));
    }
  }
}
