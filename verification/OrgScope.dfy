/**
 * Org and system scopes over pooled connections: a tree of work, run against pools,
 * open transactions, the transaction-local org setting and the ambient scope.
 *
 * Every query may fail: `tape` says which, and which idle connection a checkout
 * reuses. A failed query aborts its transaction; COMMIT of an aborted transaction
 * rolls back and reports no error; a connection whose ROLLBACK fails is dead.
 */
module OrgScope {
  import opened Base
  import opened Text
  import opened SystemPool

  type Org = string
  type ClientId = nat
  type EventId = nat

  datatype Notify = EventAppended(id: EventId) | RunActivity(run: string)

  datatype Row =
    | Event(id: EventId, org: Org, run: Option<string>)
    | Other(tag: nat, org: Org)

  datatype Tx = NoTx | Open(org: Option<Org>, aborted: bool, rows: seq<Row>, notifies: seq<Notify>)

  /** `refused` counts the queries of work that were rejected on the connection. */
  datatype Client = Client(pool: Pool, tx: Tx, checkedOut: bool, dead: bool, checkouts: nat, releases: nat,
      refused: nat)

  datatype Choice = Choice(fails: bool, reuse: nat)

  /** What the AsyncLocalStorage holds inside a scope; org is None for a system scope. */
  datatype Ambient = Ambient(client: ClientId, pool: Pool, org: Option<Org>)

  /** One look at the world from inside a scope, taken when the work runs a statement. */
  datatype Seen = Seen(ambient: Ambient, client: Client, held: nat, depth: nat)

  datatype World = World(
    clients: seq<Client>,
    rows: seq<Row>,             // durable, in commit order
    delivered: seq<Notify>,     // in delivery order
    nextId: EventId,
    tape: seq<Choice>,
    bypass: set<Pool>,          // pools whose role has BYPASSRLS
    vars: Vars,
    env: Option<string>,
    seen: seq<Seen>)

  datatype Outcome = Done | Threw

  datatype EventInput = EventInput(org: Org, run: Option<string>, payloadOk: bool)

  datatype Work =
    | Skip
    | Insert(tag: nat, org: Org)
    | Append(input: EventInput)
    | Select(test: seq<Row> -> bool, yes: Work, no: Work)   // what the query shows decides how the work goes on
    | Throw
    | Seq(first: Work, then_: Work)
    | Catch(body: Work, handler: Work)
    | InOrg(pool: Pool, org: Org, body: Work)
    | InSystem(pool: Pool, body: Work)

  // ---- one query ----

  function Next(w: World): Choice {
    if w.tape == [] then Choice(false, 0) else w.tape[0]
  }

  function Advance(w: World): World {
    if w.tape == [] then w else w.(tape := w.tape[1..])
  }

  function SetClient(w: World, k: ClientId, c: Client): World
    requires k < |w.clients|
  {
    w.(clients := w.clients[k := c])
  }

  function SetTx(w: World, k: ClientId, tx: Tx): World
    requires k < |w.clients|
  {
    SetClient(w, k, w.clients[k].(tx := tx))
  }

  function Abort(tx: Tx): Tx {
    if tx.Open? then tx.(aborted := true) else tx
  }

  /** A rejected query: its transaction is aborted. */
  function Refuse(w: World, k: ClientId): World
    requires k < |w.clients|
  {
    var c := w.clients[k];
    SetClient(w, k, c.(tx := Abort(c.tx), refused := c.refused + 1))
  }

  /** A statement inside a transaction: refused when the transaction is aborted, else it may fail. */
  function Query(w: World, k: ClientId): (r: (World, Outcome))
    requires k < |w.clients|
    ensures |r.0.clients| == |w.clients|
  {
    var tx := w.clients[k].tx;
    if Next(w).fails || (tx.Open? && tx.aborted) then (Refuse(Advance(w), k), Threw)
    else (Advance(w), Done)
  }

  /** The row-level policy on reads and writes: the row's org is the transaction's, unless the role bypasses it. */
  predicate Permits(c: Client, bypass: set<Pool>, org: Org) {
    c.pool in bypass || (c.tx.Open? && c.tx.org == Some(org))
  }

  predicate Permitted(w: World, k: ClientId, org: Org)
    requires k < |w.clients|
  {
    Permits(w.clients[k], w.bypass, org)
  }

  /** Those of the rows that the policy shows on the connection. */
  function Shown(c: Client, bypass: set<Pool>, rows: seq<Row>): (r: seq<Row>)
    ensures forall row :: row in r <==> row in rows && Permits(c, bypass, row.org)
  {
    if rows == [] then []
    else (if Permits(c, bypass, rows[0].org) then [rows[0]] else []) + Shown(c, bypass, rows[1..])
  }

  /** A SELECT sees the durable rows and those of its own transaction, within the policy. */
  function Read(w: World, k: ClientId): seq<Row>
    requires k < |w.clients|
  {
    var c := w.clients[k];
    Shown(c, w.bypass, w.rows + if c.tx.Open? then c.tx.rows else [])
  }

  function AddRow(tx: Tx, row: Row): Tx {
    if tx.Open? then tx.(rows := tx.rows + [row]) else tx
  }

  function AddNotify(tx: Tx, n: Notify): Tx {
    if tx.Open? then tx.(notifies := tx.notifies + [n]) else tx
  }

  function InsertRow(w: World, k: ClientId, row: Row): (r: (World, Outcome))
    requires k < |w.clients|
    ensures |r.0.clients| == |w.clients|
  {
    var (w1, out) := Query(w, k);
    if out == Threw then (w1, Threw)
    else if !Permitted(w1, k, row.org) then (Refuse(w1, k), Threw)
    else (SetTx(w1, k, AddRow(w1.clients[k].tx, row)), Done)
  }

  function SendNotify(w: World, k: ClientId, n: Notify): (r: (World, Outcome))
    requires k < |w.clients|
    ensures |r.0.clients| == |w.clients|
  {
    var (w1, out) := Query(w, k);
    if out == Threw then (w1, Threw) else (SetTx(w1, k, AddNotify(w1.clients[k].tx, n)), Done)
  }

  /** INSERT ... RETURNING id: the sequence moves on even when the row is refused or rolled back. */
  function InsertEvent(w: World, k: ClientId, org: Org, run: Option<string>): (r: (World, Outcome))
    requires k < |w.clients|
    ensures |r.0.clients| == |w.clients|
  {
    var (w1, out) := InsertRow(w, k, Event(w.nextId, org, run));
    (w1.(nextId := w.nextId + 1), out)
  }

  /** appendAllocatorEvent: the INSERT, the wake of the run, the wake of the dispatcher. */
  function AppendEvent(w: World, k: ClientId, input: EventInput): (r: (World, Outcome))
    requires k < |w.clients|
    ensures |r.0.clients| == |w.clients|
  {
    if Blank(input.org) || !input.payloadOk then (w, Threw)
    else
      var (w1, inserted) := InsertEvent(w, k, input.org, input.run);
      if inserted == Threw then (w1, Threw) else WakeListeners(w1, k, w.nextId, input.run)
  }

  /** The two notifications of an append: the run's, guarded by the run id's alphabet, then the event's. */
  function WakeListeners(w: World, k: ClientId, id: EventId, run: Option<string>): (r: (World, Outcome))
    requires k < |w.clients|
    ensures |r.0.clients| == |w.clients|
  {
    if run.None? then SendNotify(w, k, EventAppended(id))
    else if !SafeId(run.value) then (w, Threw)
    else
      var (w1, woken) := SendNotify(w, k, RunActivity(run.value));
      if woken == Threw then (w1, Threw) else SendNotify(w1, k, EventAppended(id))
  }

  // ---- transaction and checkout ----

  predicate Reusable(w: World, pool: Pool, k: nat) {
    k < |w.clients| && !w.clients[k].checkedOut && !w.clients[k].dead && w.clients[k].pool == pool
  }

  function Checkout(w: World, pool: Pool): (r: (World, Option<ClientId>))
    ensures |r.0.clients| >= |w.clients| && (r.1.Some? ==> r.1.value < |r.0.clients|)
  {
    var k := Next(w).reuse;
    if Next(w).fails then (Advance(w), None)
    else if Reusable(w, pool, k) then
      (SetClient(Advance(w), k, w.clients[k].(checkedOut := true, checkouts := w.clients[k].checkouts + 1)), Some(k))
    else
      (Advance(w).(clients := w.clients + [Client(pool, NoTx, true, false, 1, 0, 0)]), Some(|w.clients|))
  }

  function Release(w: World, k: ClientId): World
    requires k < |w.clients|
  {
    SetClient(w, k, w.clients[k].(checkedOut := false, releases := w.clients[k].releases + 1))
  }

  function Begin(w: World, k: ClientId): (r: (World, Outcome))
    requires k < |w.clients|
    ensures |r.0.clients| == |w.clients|
  {
    if Next(w).fails then (Advance(w), Threw) else (SetTx(Advance(w), k, Open(None, false, [], [])), Done)
  }

  /** SET LOCAL, or nothing for a system scope. */
  function SetLocal(w: World, k: ClientId, org: Option<Org>): (r: (World, Outcome))
    requires k < |w.clients|
    ensures |r.0.clients| == |w.clients|
  {
    if org.None? then (w, Done)
    else
      var (w1, out) := Query(w, k);
      if out == Threw || w1.clients[k].tx.NoTx? then (w1, out)
      else (SetTx(w1, k, w1.clients[k].tx.(org := org)), Done)
  }

  /** Identical notifications of one transaction are delivered once. */
  function Collapse(ns: seq<Notify>): (r: seq<Notify>)
    ensures forall n :: n in r <==> n in ns
  {
    if ns == [] then []
    else
      var rest := Collapse(ns[..|ns| - 1]);
      if ns[|ns| - 1] in rest then rest else rest + [ns[|ns| - 1]]
  }

  function Commit(w: World, k: ClientId): (r: (World, Outcome))
    requires k < |w.clients|
    ensures |r.0.clients| == |w.clients|
  {
    var tx := w.clients[k].tx;
    if Next(w).fails then (SetTx(Advance(w), k, Abort(tx)), Threw)
    else if tx.NoTx? || tx.aborted then (SetTx(Advance(w), k, NoTx), Done)
    else
      (SetTx(Advance(w), k, NoTx).(rows := w.rows + tx.rows, delivered := w.delivered + Collapse(tx.notifies)), Done)
  }

  /** ROLLBACK; its own failure is swallowed and leaves a dead connection. */
  function Rollback(w: World, k: ClientId): (r: World)
    requires k < |w.clients|
    ensures |r.clients| == |w.clients|
  {
    if Next(w).fails then SetClient(Advance(w), k, w.clients[k].(dead := true, tx := NoTx))
    else SetTx(Advance(w), k, NoTx)
  }

  // ---- the interpreter ----

  /** Number of connections checked out. */
  function Held(clients: seq<Client>): nat {
    if clients == [] then 0
    else Held(clients[..|clients| - 1]) + if clients[|clients| - 1].checkedOut then 1 else 0
  }

  function Look(w: World, a: Ambient, depth: nat): World
    requires a.client < |w.clients|
  {
    w.(seen := w.seen + [Seen(a, w.clients[a.client], Held(w.clients), depth)])
  }

  /** The active scope that runWithOrgScope(pool, ...) joins or collides with. */
  predicate Joins(amb: Option<Ambient>, pool: Pool) {
    amb.Some? && amb.value.org.Some? && amb.value.pool == pool
  }

  /** What follows the work of an opened scope: COMMIT or ROLLBACK, and in every case release. */
  function Finish(w: World, k: ClientId, out: Outcome): (r: (World, Outcome))
    requires k < |w.clients|
    ensures |r.0.clients| == |w.clients|
  {
    if out == Done then
      var (w1, committed) := Commit(w, k);
      if committed == Done then (Release(w1, k), Done) else (Release(Rollback(w1, k), k), Threw)
    else (Release(Rollback(w, k), k), Threw)
  }

  /** The state in which the work of an opened scope starts, or None if opening failed. */
  function Enter(w: World, pool: Pool, org: Option<Org>): (r: (World, Option<ClientId>))
    ensures |r.0.clients| >= |w.clients| && (r.1.Some? ==> r.1.value < |r.0.clients|)
  {
    var (w1, got) := Checkout(w, pool);
    if got.None? then (w1, None)
    else
      var k := got.value;
      var (w2, begun) := Begin(w1, k);
      if begun == Threw then (Release(Rollback(w2, k), k), None)
      else
        var (w3, set_) := SetLocal(w2, k, org);
        if set_ == Threw then (Release(Rollback(w3, k), k), None) else (w3, Some(k))
  }

  /** The work has `depth` enclosing scopes that opened a connection of their own. */
  function Exec(w: World, amb: Option<Ambient>, depth: nat, work: Work): (r: (World, Outcome))
    requires amb.Some? ==> amb.value.client < |w.clients|
    ensures |r.0.clients| >= |w.clients|
    decreases work, 0
  {
    match work
    case Skip => (w, Done)
    case Throw => (w, Threw)
    case Insert(tag, org) =>
      if amb.None? then (w, Threw)
      else InsertRow(Look(w, amb.value, depth), amb.value.client, Other(tag, org))
    case Append(input) =>
      if amb.None? then (w, Threw)
      else AppendEvent(Look(w, amb.value, depth), amb.value.client, input)
    case Select(test, yes, no) =>
      if amb.None? then (w, Threw)
      else
        var (w1, out) := Query(Look(w, amb.value, depth), amb.value.client);
        if out == Threw then (w1, Threw)
        else if test(Read(w1, amb.value.client)) then Exec(w1, amb, depth, yes) else Exec(w1, amb, depth, no)
    case Seq(first, then_) =>
      var (w1, out) := Exec(w, amb, depth, first);
      if out == Threw then (w1, Threw) else Exec(w1, amb, depth, then_)
    case Catch(body, handler) =>
      var (w1, out) := Exec(w, amb, depth, body);
      if out == Threw then Exec(w1, amb, depth, handler) else (w1, Done)
    case InOrg(pool, org, body) =>
      if !SafeId(org) then (w, Threw)
      else if Joins(amb, pool) then
        if amb.value.org != Some(org) then (w, Threw) else Exec(w, amb, depth, body)
      else ExecOpened(w, pool, Some(org), depth, body)
    case InSystem(pool, body) =>
      var (effective, vars) := ScopePool(w.vars, w.env, pool);
      if effective.None? then (w.(vars := vars), Threw)
      else ExecOpened(w.(vars := vars), effective.value, None, depth, body)
  }

  function ExecOpened(w: World, pool: Pool, org: Option<Org>, depth: nat, body: Work): (r: (World, Outcome))
    ensures |r.0.clients| >= |w.clients|
    decreases body, 1
  {
    var (w1, got) := Enter(w, pool, org);
    if got.None? then (w1, Threw)
    else
      var (w2, out) := Exec(w1, Some(Ambient(got.value, pool, org)), depth + 1, body);
      Finish(w2, got.value, out)
  }
}
