/**
 * The LISTEN/NOTIFY listener as a step machine: one held connection, a registry of
 * handlers per channel, and every call that is suspended at an `await`.
 *
 * A step is what runs between two suspension points of the source, or one event of
 * the environment (the pool answers, the server runs or refuses a query, the
 * connection drops). Queries of one connection are a FIFO queue.
 */
module NotifyListener {
  import opened Base

  type Channel = string
  type Handler = nat
  type SetId = nat
  type ConnId = nat
  type ConnectId = nat
  type CallId = nat

  datatype Sender = Loop(connect: ConnectId) | Subscriber(call: CallId)

  datatype Command = Listen(channel: Channel, from: Sender) | Unlisten(channel: Channel)

  /** A checked-out connection. `owner` is the connect() call that obtained it. */
  datatype Conn = Conn(
    owner: ConnectId,
    queue: seq<Command>,
    listening: set<Channel>,
    alive: bool,
    attached: bool,
    releases: nat)

  /**
   * One call of connect(). `Looping` is the re-LISTEN loop over the live handler map:
   * `pending` are the keys it has still to visit, `sent` the LISTEN it waits for.
   * `Threw` keeps in view the registered channels the loop left unheard on its
   * connection; one leaves the list when a LISTEN for it is answered there.
   */
  datatype Connect =
    | AwaitPool
    | Looping(conn: ConnId, pending: seq<Channel>, sent: Option<Channel>)
    | Resolved(conn: ConnId)
    | PoolFailed
    | Threw(conn: ConnId, missed: seq<Channel>)
  {
    predicate Active() { AwaitPool? || Looping? }

    /** The connection this connect() obtained, if the pool has given one. */
    function Held(): Option<ConnId> {
      match this
      case Looping(k, _, _) => Some(k)
      case Resolved(k) => Some(k)
      case Threw(k, _) => Some(k)
      case _ => None
    }
  }

  datatype Pc =
    | AwaitConnect(connect: ConnectId)
    | Ready                       // ensureConnected has returned, LISTEN not sent
    | AwaitListen(conn: ConnId)   // LISTEN sent on conn
    | Throwing                    // an await was rejected, the catch block has not run
    | Subscribed
    | Failed
    | Unsubscribed
  {
    /** Started, and neither failed nor unsubscribed. */
    predicate Live() { !Failed? && !Unsubscribed? }
  }

  /** One call of subscribe(). `setId` is the Set object its closure captured. */
  datatype Call = Call(channel: Channel, handler: Handler, setId: SetId, pc: Pc)

  datatype HandlerSet = HandlerSet(channel: Channel, members: set<Handler>)

  datatype State = State(
    client: Option<ConnId>,
    handlers: map<Channel, SetId>,
    keys: seq<Channel>,            // insertion order of the handler map
    connecting: Option<ConnectId>,
    closed: bool,
    sets: seq<HandlerSet>,
    conns: seq<Conn>,              // one per checkout
    connects: seq<Connect>,
    calls: seq<Call>,
    releases: nat)

  datatype Step =
    | Subscribe(channel: Channel, handler: Handler)
    | SendListen(call: CallId)
    | Catch(call: CallId)
    | Unsubscribe(call: CallId)
    | Close
    | PoolOk(connect: ConnectId, leftover: set<Channel>)
    | PoolFail(connect: ConnectId)
    | SendRelisten(connect: ConnectId)
    | FinishLoop(connect: ConnectId)
    | Execute(conn: ConnId)
    | Fail(conn: ConnId)
    | Drop(conn: ConnId)
    | ErrorEvent(conn: ConnId)

  function Init(): State {
    State(None, map[], [], None, false, [], [], [], [], 0)
  }

  // ---- pieces of a step ----

  function AddPending(p: Connect, c: Channel): Connect {
    if p.Looping? then p.(pending := p.pending + [c]) else p
  }

  function DropPending(p: Connect, c: Channel): Connect {
    match p
    case Looping(_, pending, _) => p.(pending := Without(pending, c))
    case Threw(_, missed) => p.(missed := Without(missed, c))
    case _ => p
  }

  function ClearPending(p: Connect): Connect {
    match p
    case Looping(_, _, _) => p.(pending := [])
    case Threw(_, _) => p.(missed := [])
    case _ => p
  }

  /** handlers.set(channel, new Set()): a running loop will visit the new key. */
  function AddKey(s: State, c: Channel): State {
    s.(handlers := s.handlers[c := |s.sets|],
       keys := s.keys + [c],
       sets := s.sets + [HandlerSet(c, {})],
       connects := seq(|s.connects|, n requires 0 <= n < |s.connects| => AddPending(s.connects[n], c)))
  }

  /** handlers.delete(channel): a running loop will not visit the key. */
  function DeleteKey(s: State, c: Channel): State {
    s.(handlers := s.handlers - {c},
       keys := Without(s.keys, c),
       connects := seq(|s.connects|, n requires 0 <= n < |s.connects| => DropPending(s.connects[n], c)))
  }

  /** The awaiting subscribe calls of connect() n resume at pc. */
  function Resume(calls: seq<Call>, n: ConnectId, pc: Pc): (r: seq<Call>)
    ensures |r| == |calls|
  {
    seq(|calls|, i requires 0 <= i < |calls| =>
      if calls[i].pc == AwaitConnect(n) then calls[i].(pc := pc) else calls[i])
  }

  function Enqueue(s: State, k: ConnId, cmd: Command): State
    requires k < |s.conns|
  {
    s.(conns := s.conns[k := s.conns[k].(queue := s.conns[k].queue + [cmd])])
  }

  /** The connect() that ensureConnected starts when none is in flight. */
  function StartConnect(s: State): State {
    if s.connecting.Some? then s
    else s.(connecting := Some(|s.connects|), connects := s.connects + [AwaitPool])
  }

  function SetPc(s: State, i: CallId, pc: Pc): State
    requires i < |s.calls|
  {
    s.(calls := s.calls[i := s.calls[i].(pc := pc)])
  }

  function Dequeue(s: State, k: ConnId, listening: set<Channel>): State
    requires k < |s.conns| && s.conns[k].queue != []
  {
    s.(conns := s.conns[k := s.conns[k].(queue := s.conns[k].queue[1..], listening := listening)])
  }

  /** Those of the keys that the connection does not listen to. */
  function Unheard(keys: seq<Channel>, listening: set<Channel>): (r: seq<Channel>)
    ensures forall c :: c in r <==> c in keys && c !in listening
  {
    if keys == [] then []
    else if keys[0] in listening then Unheard(keys[1..], listening)
    else [keys[0]] + Unheard(keys[1..], listening)
  }

  /** A LISTEN for c was answered on k: a loop that threw on k no longer leaves c unheard. */
  function ClearMissed(s: State, k: ConnId, c: Channel): State
    requires k < |s.conns|
  {
    var n := s.conns[k].owner;
    if n < |s.connects| && s.connects[n].Threw? then s.(connects := s.connects[n := DropPending(s.connects[n], c)])
    else s
  }

  // ---- the steps ----

  function AfterRegister(s: State, c: Channel, h: Handler): State
    requires Typed(s)
  {
    var s1 := if c in s.handlers then s else AddKey(s, c);
    var a := s1.handlers[c];
    s1.(sets := s1.sets[a := s1.sets[a].(members := s1.sets[a].members + {h})])
  }

  function AfterSubscribe(s: State, c: Channel, h: Handler): State
    requires Typed(s)
  {
    var s1 := AfterRegister(s, c, h);
    if s1.closed || s1.client.Some? then
      s1.(calls := s1.calls + [Call(c, h, s1.handlers[c], Ready)])
    else
      var s2 := StartConnect(s1);
      s2.(calls := s2.calls + [Call(c, h, s2.handlers[c], AwaitConnect(s2.connecting.value))])
  }

  function AfterSendListen(s: State, i: CallId): State
    requires i < |s.calls|
    requires s.client.Some? ==> s.client.value < |s.conns|
  {
    match s.client
    case None => SetPc(s, i, Subscribed)
    case Some(k) => SetPc(Enqueue(s, k, Listen(s.calls[i].channel, Subscriber(i))), i, AwaitListen(k))
  }

  function AfterCatch(s: State, i: CallId): State
    requires i < |s.calls| && s.calls[i].setId < |s.sets|
  {
    var call := s.calls[i];
    var left := s.sets[call.setId].members - {call.handler};
    var s1 := s.(sets := s.sets[call.setId := s.sets[call.setId].(members := left)]);
    SetPc(if left == {} then DeleteKey(s1, call.channel) else s1, i, Failed)
  }

  function AfterUnsubscribe(s: State, i: CallId): State
    requires i < |s.calls|
    requires forall c :: c in s.handlers ==> s.handlers[c] < |s.sets|
    requires s.client.Some? ==> s.client.value < |s.conns|
  {
    var call := s.calls[i];
    if call.channel !in s.handlers then SetPc(s, i, Unsubscribed)
    else
      var a := s.handlers[call.channel];
      var left := s.sets[a].members - {call.handler};
      var s1 := s.(sets := s.sets[a := s.sets[a].(members := left)]);
      if left != {} then SetPc(s1, i, Unsubscribed)
      else
        var s2 := DeleteKey(s1, call.channel);
        SetPc(if s2.client.Some? then Enqueue(s2, s2.client.value, Unlisten(call.channel)) else s2, i, Unsubscribed)
  }

  function Released(s: State, k: ConnId): State
    requires k < |s.conns|
  {
    s.(conns := s.conns[k := s.conns[k].(attached := false, releases := s.conns[k].releases + 1)],
       releases := s.releases + 1)
  }

  function AfterClose(s: State): State
    requires s.client.Some? ==> s.client.value < |s.conns|
  {
    var s1 := s.(closed := true, handlers := map[], keys := [], client := None,
                 connects := seq(|s.connects|, n requires 0 <= n < |s.connects| => ClearPending(s.connects[n])));
    if s.client.Some? then Released(s1, s.client.value) else s1
  }

  function AfterPoolOk(s: State, n: ConnectId, leftover: set<Channel>): State
    requires n < |s.connects|
  {
    s.(conns := s.conns + [Conn(n, [], leftover, true, true, 0)],
       client := Some(|s.conns|),
       connects := s.connects[n := Looping(|s.conns|, s.keys, None)])
  }

  function AfterConnectEnds(s: State, n: ConnectId, phase: Connect, pc: Pc): State
    requires n < |s.connects|
  {
    s.(connecting := None, connects := s.connects[n := phase], calls := Resume(s.calls, n, pc))
  }

  function AfterSendRelisten(s: State, n: ConnectId): State
    requires n < |s.connects| && s.connects[n].Looping? && s.connects[n].pending != []
    requires s.connects[n].conn < |s.conns|
  {
    var p := s.connects[n];
    var s1 := Enqueue(s, p.conn, Listen(p.pending[0], Loop(n)));
    s1.(connects := s1.connects[n := Looping(p.conn, p.pending[1..], Some(p.pending[0]))])
  }

  /** The head of k's queue was a LISTEN for c, and is answered. */
  function Answered(s: State, k: ConnId, c: Channel): State
    requires k < |s.conns| && s.conns[k].queue != []
  {
    ClearMissed(Dequeue(s, k, s.conns[k].listening + {c}), k, c)
  }

  function AfterExecute(s: State, k: ConnId): State
    requires k < |s.conns| && s.conns[k].queue != []
  {
    match s.conns[k].queue[0]
    case Unlisten(c) => Dequeue(s, k, s.conns[k].listening - {c})
    case Listen(c, Subscriber(i)) =>
      var s1 := Answered(s, k, c);
      if i < |s.calls| then SetPc(s1, i, Subscribed) else s1
    case Listen(c, Loop(n)) =>
      var s1 := Dequeue(s, k, s.conns[k].listening + {c});
      if n < |s.connects| && s.connects[n].Looping? then
        s1.(connects := s1.connects[n := s1.connects[n].(sent := None)])
      else s1
  }

  /** What the loop leaves unheard on k when its LISTEN for c is refused. */
  function LeftUnheard(s: State, k: ConnId, n: ConnectId, c: Channel): seq<Channel>
    requires k < |s.conns| && n < |s.connects| && s.connects[n].Looping?
  {
    Unheard((if c in s.handlers then [c] else []) + s.connects[n].pending, s.conns[k].listening)
  }

  function AfterFail(s: State, k: ConnId): State
    requires k < |s.conns| && s.conns[k].queue != []
  {
    var s1 := Dequeue(s, k, s.conns[k].listening);
    match s.conns[k].queue[0]
    case Unlisten(c) => s1
    case Listen(c, Subscriber(i)) => if i < |s.calls| then SetPc(s1, i, Throwing) else s1
    case Listen(c, Loop(n)) =>
      if n < |s.connects| && s.connects[n].Looping? then
        AfterConnectEnds(s1, n, Threw(s.connects[n].conn, LeftUnheard(s, k, n, c)), Throwing)
      else s1
  }

  function AfterDrop(s: State, k: ConnId): State
    requires k < |s.conns|
  {
    s.(conns := s.conns[k := s.conns[k].(alive := false, listening := {})])
  }

  function AfterErrorEvent(s: State, k: ConnId): State
    requires k < |s.conns|
  {
    if s.closed then s
    else
      var s1 := Released(if s.client == Some(k) then s.(client := None) else s, k);
      if s1.keys == [] || s1.client.Some? then s1 else StartConnect(s1)
  }

  predicate Enabled(s: State, step: Step) {
    match step
    case Subscribe(_, _) => true
    case SendListen(i) => i < |s.calls| && s.calls[i].pc == Ready
    case Catch(i) => i < |s.calls| && s.calls[i].pc == Throwing
    case Unsubscribe(i) => i < |s.calls| && (s.calls[i].pc == Subscribed || s.calls[i].pc == Unsubscribed)
    case Close => true
    case PoolOk(n, _) => n < |s.connects| && s.connects[n] == AwaitPool
    case PoolFail(n) => n < |s.connects| && s.connects[n] == AwaitPool
    case SendRelisten(n) =>
      n < |s.connects| && s.connects[n].Looping? && s.connects[n].pending != [] && s.connects[n].sent == None
    case FinishLoop(n) =>
      n < |s.connects| && s.connects[n].Looping? && s.connects[n].pending == [] && s.connects[n].sent == None
    case Execute(k) => k < |s.conns| && s.conns[k].alive && s.conns[k].queue != []
    case Fail(k) => k < |s.conns| && s.conns[k].queue != []
    case Drop(k) => k < |s.conns| && s.conns[k].alive
    case ErrorEvent(k) => k < |s.conns| && !s.conns[k].alive && s.conns[k].attached
  }

  /** References between the parts of a state stay inside their tables. */
  ghost predicate Typed(s: State) {
    && (s.client.Some? ==> s.client.value < |s.conns|)
    && (s.connecting.Some? ==> s.connecting.value < |s.connects|)
    && (forall c :: c in s.handlers ==> s.handlers[c] < |s.sets|)
    && (forall i :: 0 <= i < |s.calls| ==> s.calls[i].setId < |s.sets|)
    && (forall n :: 0 <= n < |s.connects| && s.connects[n].Looping? ==> s.connects[n].conn < |s.conns|)
  }

  ghost function Next(s: State, step: Step): State
    requires Typed(s) && Enabled(s, step)
  {
    match step
    case Subscribe(c, h) => AfterSubscribe(s, c, h)
    case SendListen(i) => AfterSendListen(s, i)
    case Catch(i) => AfterCatch(s, i)
    case Unsubscribe(i) => AfterUnsubscribe(s, i)
    case Close => AfterClose(s)
    case PoolOk(n, leftover) => AfterPoolOk(s, n, leftover)
    case PoolFail(n) => AfterConnectEnds(s, n, PoolFailed, Throwing)
    case SendRelisten(n) => AfterSendRelisten(s, n)
    case FinishLoop(n) => AfterConnectEnds(s, n, Resolved(s.connects[n].conn), Ready)
    case Execute(k) => AfterExecute(s, k)
    case Fail(k) => AfterFail(s, k)
    case Drop(k) => AfterDrop(s, k)
    case ErrorEvent(k) => AfterErrorEvent(s, k)
  }
}
