/**
 * Many callers at once: any number of tasks, each with work of its own, over one
 * database and one set of pools. A step is a single query, checkout or release of one
 * task, so tasks interleave wherever the source awaits. The ambient scope of a task is
 * the innermost one on its own stack.
 */
module OrgScopeTasks {
  import opened Base
  import opened Text
  import opened SystemPool
  import opened OrgScope
  import opened OrgScopeDiscipline
  import opened OrgScopeWakes

  datatype Frame =
    | Then(next: Work)
    | Handler(handler: Work)
    | Scope(ambient: Ambient, stored: seq<Row>, refused: nat)   // rows its inserts stored; rejections before it

  /** What the task does next. */
  datatype Control =
    | Running(work: Work)
    | Waking(id: EventId, run: Option<string>)      // an appended row is stored, no notification sent
    | Announcing(id: EventId)                       // and its run is woken
    | Beginning(k: ClientId, pool: Pool, org: Option<Org>, body: Work)
    | Setting(k: ClientId, pool: Pool, org: Option<Org>, body: Work)
    | RollingBack(k: ClientId)
    | Releasing(k: ClientId, out: Outcome)
    | Returned(out: Outcome)

  datatype Task = Task(control: Control, stack: seq<Frame>)   // innermost frame first

  datatype System = System(world: World, tasks: seq<Task>)

  function AmbientOf(stack: seq<Frame>): Option<Ambient> {
    if stack == [] then None else if stack[0].Scope? then Some(stack[0].ambient) else AmbientOf(stack[1..])
  }

  function DepthOf(stack: seq<Frame>): nat {
    if stack == [] then 0 else DepthOf(stack[1..]) + if stack[0].Scope? then 1 else 0
  }

  /** The innermost scope has stored these rows. */
  function Store(stack: seq<Frame>, rows: seq<Row>): seq<Frame> {
    if stack == [] then []
    else if stack[0].Scope? then [stack[0].(stored := stack[0].stored + rows)] + stack[1..]
    else [stack[0]] + Store(stack[1..], rows)
  }

  // ---- one step of one task ----

  predicate OnOwn(c: Control) {
    c.Beginning? || c.Setting? || c.RollingBack? || c.Releasing?
  }

  /** Between the INSERT of an append and its last notification. */
  predicate Appending(c: Control) {
    c.Waking? || c.Announcing?
  }

  function Own(c: Control): seq<ClientId> {
    if OnOwn(c) then [c.k] else []
  }

  function ScopeClients(stack: seq<Frame>): seq<ClientId> {
    if stack == [] then []
    else (if stack[0].Scope? then [stack[0].ambient.client] else []) + ScopeClients(stack[1..])
  }

  /** The connections a task has checked out. */
  function Clients(t: Task): seq<ClientId> {
    Own(t.control) + ScopeClients(t.stack)
  }

  predicate InRange(w: World, t: Task) {
    && (OnOwn(t.control) ==> t.control.k < |w.clients|)
    && (forall k :: k in ScopeClients(t.stack) ==> k < |w.clients|)
    && (Appending(t.control) ==> AmbientOf(t.stack).Some?)
  }

  lemma {:induction false} AmbientIsAScope(stack: seq<Frame>)
    ensures AmbientOf(stack).Some? ==> AmbientOf(stack).value.client in ScopeClients(stack)
  {
    if stack != [] {
      AmbientIsAScope(stack[1..]);
    }
  }

  function TaskStep(w: World, t: Task): (r: (World, Task))
    requires InRange(w, t)
  {
    AmbientIsAScope(t.stack);
    match t.control
    case Running(work) => Start(w, t.stack, work)
    case Waking(id, run) =>
      if run.None? then Announce(w, t.stack, id)
      else if !SafeId(run.value) then (w, Task(Returned(Threw), t.stack))
      else
        var (w1, woken) := SendNotify(w, AmbientOf(t.stack).value.client, RunActivity(run.value));
        (w1, Task(if woken == Done then Announcing(id) else Returned(Threw), t.stack))
    case Announcing(id) => Announce(w, t.stack, id)
    case Beginning(k, pool, org, body) =>
      var (w1, begun) := Begin(w, k);
      (w1, Task(if begun == Done then Setting(k, pool, org, body) else RollingBack(k), t.stack))
    case Setting(k, pool, org, body) =>
      var (w1, set_) := SetLocal(w, k, org);
      if set_ == Threw then (w1, Task(RollingBack(k), t.stack))
      else (w1, Task(Running(body), [Scope(Ambient(k, pool, org), [], w1.clients[k].refused)] + t.stack))
    case RollingBack(k) =>
      (Rollback(w, k), Task(Releasing(k, Threw), t.stack))
    case Releasing(k, out) =>
      (Release(w, k), Task(Returned(out), t.stack))
    case Returned(out) => if t.stack == [] then (w, t) else Resume(w, t.stack, out)
  }

  function Announce(w: World, stack: seq<Frame>, id: EventId): (World, Task)
    requires AmbientOf(stack).Some? && AmbientOf(stack).value.client < |w.clients|
  {
    var (w1, out) := SendNotify(w, AmbientOf(stack).value.client, EventAppended(id));
    (w1, Task(Returned(out), stack))
  }

  /** A piece of work has returned: on to the rest, to the handler, or to COMMIT or ROLLBACK of the scope. */
  function Resume(w: World, stack: seq<Frame>, out: Outcome): (World, Task)
    requires stack != [] && (stack[0].Scope? ==> stack[0].ambient.client < |w.clients|)
  {
    match stack[0]
    case Then(next) => (w, Task(if out == Done then Running(next) else Returned(Threw), stack[1..]))
    case Handler(handler) => (w, Task(if out == Threw then Running(handler) else Returned(Done), stack[1..]))
    case Scope(a, _, _) =>
      if out == Threw then (Rollback(w, a.client), Task(Releasing(a.client, Threw), stack[1..]))
      else
        var (w1, committed) := Commit(w, a.client);
        (w1, Task(if committed == Done then Releasing(a.client, Done) else RollingBack(a.client), stack[1..]))
  }

  function Start(w: World, stack: seq<Frame>, work: Work): (World, Task)
    requires AmbientOf(stack).Some? ==> AmbientOf(stack).value.client < |w.clients|
  {
    var amb, depth := AmbientOf(stack), DepthOf(stack);
    match work
    case Skip => (w, Task(Returned(Done), stack))
    case Throw => (w, Task(Returned(Threw), stack))
    case Insert(tag, org) =>
      if amb.None? then (w, Task(Returned(Threw), stack))
      else
        var (w1, out) := InsertRow(Look(w, amb.value, depth), amb.value.client, Other(tag, org));
        (w1, Task(Returned(out), if out == Done then Store(stack, [Other(tag, org)]) else stack))
    case Append(input) =>
      if amb.None? then (w, Task(Returned(Threw), stack))
      else if Blank(input.org) || !input.payloadOk then (Look(w, amb.value, depth), Task(Returned(Threw), stack))
      else
        var (w1, out) := InsertEvent(Look(w, amb.value, depth), amb.value.client, input.org, input.run);
        if out == Threw then (w1, Task(Returned(Threw), stack))
        else (w1, Task(Waking(w.nextId, input.run), Store(stack, [Event(w.nextId, input.org, input.run)])))
    case Select(test, yes, no) =>
      if amb.None? then (w, Task(Returned(Threw), stack))
      else
        var (w1, out) := Query(Look(w, amb.value, depth), amb.value.client);
        if out == Threw then (w1, Task(Returned(Threw), stack))
        else (w1, Task(Running(if test(Read(w1, amb.value.client)) then yes else no), stack))
    case Seq(first, then_) => (w, Task(Running(first), [Then(then_)] + stack))
    case Catch(body, handler) => (w, Task(Running(body), [Handler(handler)] + stack))
    case InOrg(pool, org, body) =>
      if !SafeId(org) then (w, Task(Returned(Threw), stack))
      else if Joins(amb, pool) then
        (w, Task(if amb.value.org != Some(org) then Returned(Threw) else Running(body), stack))
      else Opening(w, stack, pool, Some(org), body)
    case InSystem(pool, body) =>
      var (effective, vars) := ScopePool(w.vars, w.env, pool);
      if effective.None? then (w.(vars := vars), Task(Returned(Threw), stack))
      else Opening(w.(vars := vars), stack, effective.value, None, body)
  }

  function Opening(w: World, stack: seq<Frame>, pool: Pool, org: Option<Org>, body: Work): (World, Task) {
    var (w1, got) := Checkout(w, pool);
    (w1, Task(if got.None? then Returned(Threw) else Beginning(got.value, pool, org, body), stack))
  }

  // ---- what holds of one task ----

  /** The connection of a scope serves it; it holds what the scope stored, and is aborted exactly after a rejection. */
  predicate ScopeServed(w: World, f: Frame)
    requires f.Scope?
  {
    f.ambient.client < |w.clients|
    && var c := w.clients[f.ambient.client];
       && Serves(f.ambient, c) && c.tx.rows == f.stored
       && f.refused <= c.refused && (c.tx.aborted <==> f.refused < c.refused)
  }

  predicate ScopesServed(w: World, stack: seq<Frame>) {
    stack != [] ==> (stack[0].Scope? ==> ScopeServed(w, stack[0])) && ScopesServed(w, stack[1..])
  }

  /** A transaction to whose last row the wakes are still owed; without that row it is told. */
  ghost predicate Owes(tx: Tx, c: Control, nextId: EventId)
    requires Appending(c)
  {
    && tx.Open? && !tx.aborted && tx.rows != [] && c.id < nextId
    && var row, before := Last(tx.rows), tx.(rows := Init(tx.rows));
       && row.Event? && row.id == c.id
       && match c
          case Waking(id, run) => row.run == run && TxTold(before, id)
          case Announcing(id) =>
            && tx.notifies != [] && row.run.Some? && SafeId(row.run.value)
            && Last(tx.notifies) == RunActivity(row.run.value)
            && TxTold(before.(notifies := Init(tx.notifies)), id)
  }

  function Last<T>(s: seq<T>): T
    requires s != []
  {
    s[|s| - 1]
  }

  function Init<T>(s: seq<T>): seq<T>
    requires s != []
  {
    s[..|s| - 1]
  }

  ghost predicate ControlServed(w: World, t: Task)
    requires InRange(w, t)
  {
    AmbientIsAScope(t.stack);
    match t.control
    case Waking(_, _) => Owes(w.clients[AmbientOf(t.stack).value.client].tx, t.control, w.nextId)
    case Announcing(_) => Owes(w.clients[AmbientOf(t.stack).value.client].tx, t.control, w.nextId)
    case Beginning(k, pool, _, _) => Fresh(w.clients[k], pool) && w.clients[k].tx.NoTx?
    case Setting(k, pool, _, _) => Fresh(w.clients[k], pool) && w.clients[k].tx == Open(None, false, [], [])
    case RollingBack(k) => w.clients[k].checkedOut
    case Releasing(k, _) => w.clients[k].checkedOut && w.clients[k].tx.NoTx?
    case _ => true
  }

  predicate Fresh(c: Client, pool: Pool) {
    c.checkedOut && !c.dead && c.pool == pool
  }

  /** Each connection of the task is as its place in the stack or its next step needs it, and is used once. */
  ghost predicate TaskServed(w: World, t: Task) {
    NoDuplicates(Clients(t)) && InRange(w, t) && ScopesServed(w, t.stack) && ControlServed(w, t)
  }

  /** The task is in the middle of an append on this connection. */
  predicate MidAppend(t: Task, k: ClientId) {
    Appending(t.control) && AmbientOf(t.stack).Some? && AmbientOf(t.stack).value.client == k
  }
}
