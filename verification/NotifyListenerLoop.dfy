/**
 * The re-LISTEN loop iterates over the live handler map: what it has still to visit is
 * the tail of the registry, whatever is registered and removed while it runs, and what
 * it has visited is listened to without the help of any subscribe call.
 */
module NotifyListenerLoop {
  import opened Base
  import opened NotifyListener
  import opened NotifyListenerInvariants
  import opened NotifyListenerRegistry
  import opened NotifyListenerRefinement
  import opened NotifyListenerRuns

  /** These are the last of the keys, in order. */
  predicate Tail(pending: seq<Channel>, keys: seq<Channel>) {
    |pending| <= |keys| && pending == keys[|keys| - |pending|..]
  }

  /** Once its queue drains k listens to c, even if every LISTEN of a subscribe call is refused. */
  predicate Visited(s: State, k: ConnId, c: Channel)
    requires k < |s.conns|
  {
    Drains(c, c in s.conns[k].listening, s.conns[k].queue, false)
  }

  ghost predicate Follows(s: State, n: ConnectId)
    requires n < |s.connects| && s.connects[n].Looping? && s.connects[n].conn < |s.conns|
  {
    var p := s.connects[n];
    && Tail(p.pending, s.keys)
    && (s.conns[p.conn].alive ==> forall c :: c in s.keys && c !in p.pending ==> Visited(s, p.conn, c))
  }

  ghost predicate LoopsFollow(s: State)
    requires Typed(s)
  {
    forall n :: 0 <= n < |s.connects| && s.connects[n].Looping? ==> Follows(s, n)
  }

  // ---- the registry changes under the loop ----

  lemma {:induction false} WithoutConcat(a: seq<Channel>, b: seq<Channel>, c: Channel)
    ensures Without(a + b, c) == Without(a, c) + Without(b, c)
  {
    if a == [] {
      assert a + b == b;
    } else {
      assert (a + b)[1..] == a[1..] + b;
      WithoutConcat(a[1..], b, c);
    }
  }

  lemma TailWithout(pending: seq<Channel>, keys: seq<Channel>, c: Channel)
    requires Tail(pending, keys)
    ensures Tail(Without(pending, c), Without(keys, c))
  {
    var front := keys[..|keys| - |pending|];
    assert keys == front + pending;
    WithoutConcat(front, pending, c);
  }

  lemma TailSnoc(pending: seq<Channel>, keys: seq<Channel>, c: Channel)
    requires Tail(pending, keys)
    ensures Tail(pending + [c], keys + [c])
  {
  }

  lemma AddKeyFollows(s: State, c: Channel)
    requires Typed(s) && LoopsFollow(s)
    ensures Typed(AddKey(s, c)) && LoopsFollow(AddKey(s, c))
  {
    var t := AddKey(s, c);
    forall n | 0 <= n < |t.connects| && t.connects[n].Looping? ensures Follows(t, n) {
      assert Follows(s, n) && t.connects[n] == AddPending(s.connects[n], c);
      TailSnoc(s.connects[n].pending, s.keys, c);
      forall c' | c' in t.keys && c' !in t.connects[n].pending && t.conns[t.connects[n].conn].alive
        ensures Visited(t, t.connects[n].conn, c')
      {
        assert c' != c by { assert t.connects[n].pending[|s.connects[n].pending|] == c; }
        assert c' in s.keys && Visited(s, s.connects[n].conn, c');
      }
    }
  }

  lemma DeleteKeyFollows(s: State, c: Channel)
    requires Typed(s) && Typed(DeleteKey(s, c)) && LoopsFollow(s)
    ensures LoopsFollow(DeleteKey(s, c))
  {
    var t := DeleteKey(s, c);
    forall n | 0 <= n < |t.connects| && t.connects[n].Looping? ensures Follows(t, n) {
      assert Follows(s, n) && t.connects[n] == DropPending(s.connects[n], c);
      TailWithout(s.connects[n].pending, s.keys, c);
      forall c' | c' in t.keys && c' !in t.connects[n].pending && t.conns[t.connects[n].conn].alive
        ensures Visited(t, t.connects[n].conn, c')
      {
        assert Visited(s, s.connects[n].conn, c');
      }
    }
  }

  // ---- the connection moves on under the loop ----

  /** Each loop of t was one of s, over the same keys, and no connection that lives forgets a registered channel. */
  lemma LoopFrame(s: State, t: State)
    requires Typed(s) && Typed(t) && LoopsFollow(s) && t.keys == s.keys && |t.conns| >= |s.conns|
    requires forall n :: 0 <= n < |t.connects| && t.connects[n].Looping? ==>
               && n < |s.connects| && s.connects[n].Looping?
               && t.connects[n].conn == s.connects[n].conn && t.connects[n].pending == s.connects[n].pending
    requires forall k :: 0 <= k < |s.conns| && t.conns[k].alive ==> s.conns[k].alive
    requires forall k, c :: 0 <= k < |s.conns| && t.conns[k].alive && c in s.keys && Visited(s, k, c) ==>
               Visited(t, k, c)
    ensures LoopsFollow(t)
  {
    forall n | 0 <= n < |t.connects| && t.connects[n].Looping? ensures Follows(t, n) {
      assert Follows(s, n);
      var k := s.connects[n].conn;
      forall c | c in t.keys && c !in t.connects[n].pending && t.conns[k].alive ensures Visited(t, k, c) {
        assert Visited(s, k, c);
      }
    }
  }

  lemma SameQueues(s: State, t: State)
    requires |t.conns| >= |s.conns|
    requires forall k :: 0 <= k < |s.conns| ==>
               t.conns[k].queue == s.conns[k].queue && t.conns[k].listening == s.conns[k].listening
    ensures forall k, c :: 0 <= k < |s.conns| && Visited(s, k, c) ==> Visited(t, k, c)
  {
  }

  /** A command at the end of a queue takes nothing from the registered channels, unless it is the UNLISTEN of one. */
  lemma EnqueueVisits(s: State, k: ConnId, cmd: Command)
    requires k < |s.conns| && (cmd.Unlisten? ==> cmd.channel !in s.keys)
    ensures forall j, c :: 0 <= j < |s.conns| && c in s.keys && Visited(s, j, c) ==> Visited(Enqueue(s, k, cmd), j, c)
    ensures cmd.Listen? && cmd.from.Loop? ==> Visited(Enqueue(s, k, cmd), k, cmd.channel)
  {
    var t := Enqueue(s, k, cmd);
    forall c ensures Visited(t, k, c) == Effect(c, Visited(s, k, c), cmd, false) {
      DrainsSnoc(c, c in s.conns[k].listening, s.conns[k].queue, cmd, false);
    }
    forall j, c | 0 <= j < |s.conns| && c in s.keys && Visited(s, j, c) ensures Visited(t, j, c) {
      if j != k { assert t.conns[j] == s.conns[j]; }
    }
  }

  /** The head of a queue is run or refused: what the queue would have made of a channel it still makes of it. */
  lemma DequeueVisits(s: State, k: ConnId, listening: set<Channel>, c: Channel)
    requires k < |s.conns| && s.conns[k].queue != [] && Visited(s, k, c)
    requires Effect(c, c in s.conns[k].listening, s.conns[k].queue[0], false) ==> c in listening
    ensures Visited(Dequeue(s, k, listening), k, c)
  {
    var on := Effect(c, c in s.conns[k].listening, s.conns[k].queue[0], false);
    DrainsMonotone(c, on, c in listening, s.conns[k].queue[1..], false, false);
  }

  lemma AllDequeueVisits(s: State, k: ConnId, listening: set<Channel>)
    requires k < |s.conns| && s.conns[k].queue != []
    requires forall c :: Effect(c, c in s.conns[k].listening, s.conns[k].queue[0], false) ==> c in listening
    ensures forall j, c :: 0 <= j < |s.conns| && Visited(s, j, c) ==> Visited(Dequeue(s, k, listening), j, c)
  {
    var t := Dequeue(s, k, listening);
    forall j, c | 0 <= j < |s.conns| && Visited(s, j, c) ensures Visited(t, j, c) {
      if j == k {
        DequeueVisits(s, k, listening, c);
      } else {
        assert t.conns[j] == s.conns[j];
      }
    }
  }

  // ---- every step ----

  lemma SubscribeFollows(s: State, c: Channel, h: Handler)
    requires Typed(s) && LoopsFollow(s) && Typed(AfterSubscribe(s, c, h))
    ensures LoopsFollow(AfterSubscribe(s, c, h))
  {
    SubscribeShape(s, c, h);
    var s1 := if c in s.handlers then s else AddKey(s, c);
    if c !in s.handlers { AddKeyFollows(s, c); }
    var t := AfterSubscribe(s, c, h);
    SameQueues(s1, t);
    LoopFrame(s1, t);
  }

  lemma SendListenFollows(s: State, i: CallId)
    requires Typed(s) && LoopsFollow(s) && i < |s.calls|
    ensures Typed(AfterSendListen(s, i)) && LoopsFollow(AfterSendListen(s, i))
  {
    var t := AfterSendListen(s, i);
    if s.client.Some? {
      var cmd := Listen(s.calls[i].channel, Subscriber(i));
      EnqueueVisits(s, s.client.value, cmd);
      SameQueues(Enqueue(s, s.client.value, cmd), t);
    } else {
      SameQueues(s, t);
    }
    LoopFrame(s, t);
  }

  lemma RemoveFollows(s: State, a: SetId, c: Channel, h: Handler)
    requires Typed(s) && LoopsFollow(s) && a < |s.sets| && Typed(AfterRemove(s, a, c, h))
    ensures LoopsFollow(AfterRemove(s, a, c, h))
  {
    var s1 := s.(sets := s.sets[a := s.sets[a].(members := s.sets[a].members - {h})]);
    SameQueues(s, s1);
    LoopFrame(s, s1);
    if s1.sets[a].members == {} { DeleteKeyFollows(s1, c); }
  }

  lemma EndFollows(s: State, i: CallId, pc: Pc)
    requires Typed(s) && LoopsFollow(s) && i < |s.calls|
    ensures Typed(SetPc(s, i, pc)) && LoopsFollow(SetPc(s, i, pc))
  {
    SameQueues(s, SetPc(s, i, pc));
    LoopFrame(s, SetPc(s, i, pc));
  }

  lemma CatchFollows(s: State, i: CallId)
    requires Typed(s) && LoopsFollow(s) && i < |s.calls|
    ensures Typed(AfterCatch(s, i)) && LoopsFollow(AfterCatch(s, i))
  {
    var call := s.calls[i];
    CatchShape(s, i);
    RemoveFollows(s, call.setId, call.channel, call.handler);
    EndFollows(AfterRemove(s, call.setId, call.channel, call.handler), i, Failed);
  }

  lemma UnlistenFollows(s: State, k: ConnId, c: Channel)
    requires Typed(s) && LoopsFollow(s) && k < |s.conns| && c !in s.keys
    ensures Typed(Enqueue(s, k, Unlisten(c))) && LoopsFollow(Enqueue(s, k, Unlisten(c)))
  {
    EnqueueVisits(s, k, Unlisten(c));
    LoopFrame(s, Enqueue(s, k, Unlisten(c)));
  }

  lemma UnsubscribeFollows(s: State, i: CallId)
    requires Typed(s) && LoopsFollow(s) && i < |s.calls|
    ensures Typed(AfterUnsubscribe(s, i)) && LoopsFollow(AfterUnsubscribe(s, i))
  {
    var call := s.calls[i];
    if call.channel !in s.handlers {
      EndFollows(s, i, Unsubscribed);
    } else {
      var a := s.handlers[call.channel];
      UnsubscribeShape(s, i);
      var s1 := AfterRemove(s, a, call.channel, call.handler);
      RemoveFollows(s, a, call.channel, call.handler);
      EndFollows(s1, i, Unsubscribed);
      var s2 := SetPc(s1, i, Unsubscribed);
      if s.sets[a].members - {call.handler} == {} && s.client.Some? {
        RemovedKey(s, a, call.channel, call.handler);
        UnlistenFollows(s2, s.client.value, call.channel);
      }
    }
  }

  lemma RemovedKey(s: State, a: SetId, c: Channel, h: Handler)
    requires a < |s.sets| && s.sets[a].members - {h} == {}
    ensures c !in AfterRemove(s, a, c, h).keys
  {
  }

  lemma CloseFollows(s: State)
    requires Typed(s) && LoopsFollow(s)
    ensures Typed(AfterClose(s)) && LoopsFollow(AfterClose(s))
  {
    var t := AfterClose(s);
    forall n | 0 <= n < |t.connects| && t.connects[n].Looping? ensures Follows(t, n) {
      assert t.connects[n] == ClearPending(s.connects[n]) && t.keys == [];
    }
  }

  lemma PoolOkFollows(s: State, n: ConnectId, leftover: set<Channel>)
    requires Typed(s) && LoopsFollow(s) && Enabled(s, PoolOk(n, leftover))
    ensures Typed(AfterPoolOk(s, n, leftover)) && LoopsFollow(AfterPoolOk(s, n, leftover))
  {
    var t := AfterPoolOk(s, n, leftover);
    SameQueues(s, t);
    forall m | 0 <= m < |t.connects| && t.connects[m].Looping? ensures Follows(t, m) {
      if m != n { assert Follows(s, m); }
    }
  }

  lemma ConnectEndsFollows(s: State, n: ConnectId, phase: Connect, pc: Pc)
    requires Typed(s) && LoopsFollow(s) && n < |s.connects| && !phase.Looping?
    ensures Typed(AfterConnectEnds(s, n, phase, pc)) && LoopsFollow(AfterConnectEnds(s, n, phase, pc))
  {
    SameQueues(s, AfterConnectEnds(s, n, phase, pc));
    LoopFrame(s, AfterConnectEnds(s, n, phase, pc));
  }

  lemma SendRelistenFollows(s: State, n: ConnectId)
    requires Typed(s) && LoopsFollow(s) && Enabled(s, SendRelisten(n))
    ensures Typed(AfterSendRelisten(s, n)) && LoopsFollow(AfterSendRelisten(s, n))
  {
    var p, t := s.connects[n], AfterSendRelisten(s, n);
    var u := Enqueue(s, p.conn, Listen(p.pending[0], Loop(n)));
    EnqueueVisits(s, p.conn, Listen(p.pending[0], Loop(n)));
    LoopFrame(s, u);
    SameQueues(u, t);
    forall m | 0 <= m < |t.connects| && t.connects[m].Looping? ensures Follows(t, m) {
      assert Follows(u, m);
      if m == n {
        forall c | c in t.keys && c !in t.connects[n].pending ensures c == p.pending[0] || c !in p.pending {
          assert p.pending == [p.pending[0]] + p.pending[1..];
        }
      }
    }
  }

  lemma ExecuteFollows(s: State, k: ConnId)
    requires Typed(s) && LoopsFollow(s) && Enabled(s, Execute(k)) && Typed(AfterExecute(s, k))
    ensures LoopsFollow(AfterExecute(s, k))
  {
    var t := AfterExecute(s, k);
    AllDequeueVisits(s, k, t.conns[k].listening);
    SameQueues(Dequeue(s, k, t.conns[k].listening), t);
    ExecuteKeepsLoops(s, k);
    LoopFrame(s, t);
  }

  lemma ExecuteKeepsLoops(s: State, k: ConnId)
    requires k < |s.conns| && s.conns[k].queue != []
    ensures var t := AfterExecute(s, k);
            && |t.connects| == |s.connects|
            && forall n :: 0 <= n < |t.connects| && t.connects[n].Looping? ==>
                 && s.connects[n].Looping?
                 && t.connects[n].conn == s.connects[n].conn && t.connects[n].pending == s.connects[n].pending
  {
  }

  lemma FailFollows(s: State, k: ConnId)
    requires Typed(s) && Conserved(s) && LoopsFollow(s) && Enabled(s, Fail(k)) && Typed(AfterFail(s, k))
    requires Awaited(s, k, s.conns[k].queue[0])
    ensures LoopsFollow(AfterFail(s, k))
  {
    var t := AfterFail(s, k);
    var head := s.conns[k].queue[0];
    if head.Listen? && head.from.Loop? {
      OneLoop(s, head.from.connect);
    } else {
      AllDequeueVisits(s, k, s.conns[k].listening);
      SameQueues(Dequeue(s, k, s.conns[k].listening), t);
      LoopFrame(s, t);
    }
  }

  lemma OneLoop(s: State, n: ConnectId)
    requires Typed(s) && Conserved(s) && n < |s.connects| && s.connects[n].Looping?
    ensures forall m :: 0 <= m < |s.connects| && s.connects[m].Looping? ==> m == n
  {
    forall m | 0 <= m < |s.connects| && s.connects[m].Looping? ensures m == n {
      assert s.connects[m].Active() && s.connects[n].Active();
    }
  }

  lemma DropFollows(s: State, k: ConnId)
    requires Typed(s) && LoopsFollow(s) && k < |s.conns|
    ensures Typed(AfterDrop(s, k)) && LoopsFollow(AfterDrop(s, k))
  {
    LoopFrame(s, AfterDrop(s, k));
  }

  lemma ErrorEventFollows(s: State, k: ConnId)
    requires Typed(s) && LoopsFollow(s) && k < |s.conns|
    ensures Typed(AfterErrorEvent(s, k)) && LoopsFollow(AfterErrorEvent(s, k))
  {
    SameQueues(s, AfterErrorEvent(s, k));
    LoopFrame(s, AfterErrorEvent(s, k));
  }

  lemma StepKeepsFollowing(s: State, step: Step)
    requires Good(s) && LoopsFollow(s) && Enabled(s, step)
    ensures Typed(Next(s, step)) && LoopsFollow(Next(s, step))
  {
    StepKeepsRefines(s, step);
    match step
    case Subscribe(c, h) => SubscribeFollows(s, c, h);
    case SendListen(i) => SendListenFollows(s, i);
    case Catch(i) => CatchFollows(s, i);
    case Unsubscribe(i) => UnsubscribeFollows(s, i);
    case Close => CloseFollows(s);
    case PoolOk(n, leftover) => PoolOkFollows(s, n, leftover);
    case PoolFail(n) => ConnectEndsFollows(s, n, PoolFailed, Throwing);
    case SendRelisten(n) => SendRelistenFollows(s, n);
    case FinishLoop(n) => ConnectEndsFollows(s, n, Resolved(s.connects[n].conn), Ready);
    case Execute(k) => ExecuteFollows(s, k);
    case Fail(k) =>
      assert Awaited(s, k, s.conns[k].queue[0]);
      FailFollows(s, k);
    case Drop(k) => DropFollows(s, k);
    case ErrorEvent(k) => ErrorEventFollows(s, k);
  }

  lemma {:induction false} RunKeepsFollowing(s: State, steps: seq<Step>)
    requires Good(s) && LoopsFollow(s) && ValidRun(s, steps)
    ensures Typed(Run(s, steps)) && LoopsFollow(Run(s, steps))
    decreases steps
  {
    if steps != [] {
      StepKeepsRefines(s, steps[0]);
      StepKeepsFollowing(s, steps[0]);
      RunKeepsFollowing(Next(s, steps[0]), steps[1..]);
    }
  }

  /**
   * In every reachable state, whatever was subscribed, unsubscribed, caught or closed while
   * the loop ran: it has still to visit exactly the last channels of the registry, in
   * the order in which they were registered, and on a live connection every other
   * registered channel will be listened to although no subscribe call helps.
   */
  lemma LoopFollowsTheRegistry(s: State, n: ConnectId)
    requires Reachable(s) && n < |s.connects| && s.connects[n].Looping?
    ensures s.connects[n].conn < |s.conns| && Follows(s, n)
  {
    InitIsGood();
    var steps :| ValidRun(Init(), steps) && Run(Init(), steps) == s;
    RunKeepsFollowing(Init(), steps);
  }

  /** So a LISTEN of the loop is for a channel that is registered when it is sent. */
  lemma RelistensOnlyTheRegistered(s: State, n: ConnectId)
    requires Reachable(s) && Enabled(s, SendRelisten(n))
    ensures s.connects[n].pending[0] in s.handlers
  {
    LoopFollowsTheRegistry(s, n);
    ReachableIsGood(s);
  }

  /** And when it finishes on a live connection, that will listen to every registered channel. */
  lemma FinishedLoopVisitedAll(s: State, n: ConnectId, c: Channel)
    requires Reachable(s) && Enabled(s, FinishLoop(n)) && c in s.handlers
    ensures var k := s.connects[n].conn; k < |s.conns| && (s.conns[k].alive ==> Visited(s, k, c))
  {
    LoopFollowsTheRegistry(s, n);
    ReachableIsGood(s);
  }
}
