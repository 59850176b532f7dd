/** Every registered channel is listened to, or it is known who still has to do it. */
module NotifyListenerRefinement {
  import opened Base
  import opened NotifyListener
  import opened NotifyListenerInvariants
  import opened NotifyListenerRegistry

  // ---- what a FIFO queue will do to one channel ----

  /** With `all` false, a LISTEN sent by a subscribe call is taken to fail. */
  function Effect(c: Channel, on: bool, cmd: Command, all: bool): bool {
    match cmd
    case Listen(c', from) => if c' == c && (all || from.Loop?) then true else on
    case Unlisten(c') => if c' == c then false else on
  }

  function Drains(c: Channel, on: bool, q: seq<Command>, all: bool): bool
    decreases q
  {
    if q == [] then on else Drains(c, Effect(c, on, q[0], all), q[1..], all)
  }

  lemma {:induction false} DrainsSnoc(c: Channel, on: bool, q: seq<Command>, cmd: Command, all: bool)
    ensures Drains(c, on, q + [cmd], all) == Effect(c, Drains(c, on, q, all), cmd, all)
    decreases q
  {
    if q != [] {
      assert (q + [cmd])[1..] == q[1..] + [cmd];
      DrainsSnoc(c, Effect(c, on, q[0], all), q[1..], cmd, all);
    }
  }

  lemma {:induction false} DrainsMonotone(c: Channel, on: bool, on': bool, q: seq<Command>, all: bool, all': bool)
    requires (on ==> on') && (all ==> all') && Drains(c, on, q, all)
    ensures Drains(c, on', q, all')
    decreases q
  {
    if q != [] {
      DrainsMonotone(c, Effect(c, on, q[0], all), Effect(c, on', q[0], all'), q[1..], all, all');
    }
  }

  /** A LISTEN of subscribe call i is queued and no UNLISTEN of the channel follows it. */
  ghost predicate Queued(q: seq<Command>, c: Channel, i: CallId) {
    && Listen(c, Subscriber(i)) in q
    && forall j, j' :: 0 <= j < j' < |q| && q[j] == Listen(c, Subscriber(i)) ==> q[j'] != Unlisten(c)
  }

  lemma {:induction false} NoUnlistenDrains(c: Channel, q: seq<Command>)
    requires Unlisten(c) !in q
    ensures Drains(c, true, q, false)
  {
    if q != [] {
      NoUnlistenDrains(c, q[1..]);
    }
  }

  lemma {:induction false} QueuedDrains(c: Channel, on: bool, q: seq<Command>, i: CallId)
    requires Queued(q, c, i)
    ensures Drains(c, on, q, true)
    decreases q
  {
    if q[0] == Listen(c, Subscriber(i)) {
      assert Unlisten(c) !in q[1..];
      NoUnlistenDrains(c, q[1..]);
      DrainsMonotone(c, true, true, q[1..], false, true);
    } else {
      assert q == [q[0]] + q[1..];
      QueuedDrains(c, Effect(c, on, q[0], true), q[1..], i);
    }
  }

  // ---- the refinement invariant ----

  /** Channels the loop of k's connect() has not re-LISTENed: still to visit, or missed when it threw. */
  function Unvisited(s: State, k: ConnId): seq<Channel>
    requires k < |s.conns| && s.conns[k].owner < |s.connects|
  {
    match s.connects[s.conns[k].owner]
    case Looping(_, pending, _) => pending
    case Threw(_, missed) => missed
    case _ => []
  }

  /** The subscribe call's Set object is the one registered for its channel. */
  predicate Current(s: State, i: CallId)
    requires i < |s.calls|
  {
    s.calls[i].channel in s.handlers && s.handlers[s.calls[i].channel] == s.calls[i].setId
  }

  /** k listens to c once its queue drains even if every LISTEN of a subscribe call fails, or the loop owes it. */
  predicate Covered(s: State, k: ConnId, c: Channel)
    requires k < |s.conns| && s.conns[k].owner < |s.connects|
  {
    Drains(c, c in s.conns[k].listening, s.conns[k].queue, false) || c in Unvisited(s, k)
  }

  /** And no UNLISTEN of c is queued: that of an earlier Set has run. */
  predicate CoveredForGood(s: State, k: ConnId, c: Channel)
    requires k < |s.conns| && s.conns[k].owner < |s.connects|
  {
    Covered(s, k, c) && Unlisten(c) !in s.conns[k].queue
  }

  ghost predicate CallCovered(s: State, k: ConnId, i: CallId)
    requires k < |s.conns| && s.conns[k].owner < |s.connects| && i < |s.calls|
  {
    match s.calls[i].pc
    case Subscribed => CoveredForGood(s, k, s.calls[i].channel)
    case AwaitListen(k') =>
      if k' == k then Queued(s.conns[k].queue, s.calls[i].channel, i) else CoveredForGood(s, k, s.calls[i].channel)
    case _ => true
  }

  /** A call of a registered set never waits on a live connection other than the client. */
  ghost predicate WaitsOnClient(s: State, i: CallId)
    requires i < |s.calls|
  {
    s.calls[i].pc.AwaitListen? && s.calls[i].pc.conn < |s.conns| && s.conns[s.calls[i].pc.conn].alive ==>
      s.client == Some(s.calls[i].pc.conn)
  }

  ghost predicate Refines(s: State)
    requires Accounted(s)
  {
    && (s.client.Some? && s.conns[s.client.value].alive ==>
          forall i :: 0 <= i < |s.calls| && Current(s, i) ==> CallCovered(s, s.client.value, i))
    && (forall i :: 0 <= i < |s.calls| && Current(s, i) ==> WaitsOnClient(s, i))
  }

  /** The call has sent its LISTEN. */
  predicate OnConnection(pc: Pc) { pc.Subscribed? || pc.AwaitListen? }

  /** A step that does not touch the current connection, and only ends or starts calls. */
  lemma RefinesFrame(s: State, t: State)
    requires Accounted(s) && Refines(s) && Accounted(t)
    requires t.client == s.client && |t.conns| == |s.conns|
    requires forall k :: 0 <= k < |s.conns| ==> t.conns[k].alive == s.conns[k].alive
    requires s.client.Some? ==> t.conns[s.client.value] == s.conns[s.client.value]
    requires s.client.Some? ==> forall c :: c in Unvisited(s, s.client.value) && c in t.handlers ==>
        c in Unvisited(t, s.client.value)
    requires forall i :: 0 <= i < |t.calls| && Current(t, i) && OnConnection(t.calls[i].pc) ==>
               && i < |s.calls| && Current(s, i)
               && t.calls[i].channel == s.calls[i].channel && t.calls[i].pc == s.calls[i].pc
    ensures Refines(t)
  {
    if s.client.Some? && s.conns[s.client.value].alive {
      var k := s.client.value;
      forall i | 0 <= i < |t.calls| && Current(t, i)
        ensures CallCovered(t, k, i)
      {
        if t.calls[i].pc.Subscribed? || t.calls[i].pc.AwaitListen? {
          assert CallCovered(s, k, i);
        }
      }
    }
  }

  lemma SubscribeKeepsUnvisited(s: State, c: Channel, h: Handler, k: ConnId)
    requires Typed(s) && s.client == Some(k) && s.conns[k].owner < |s.connects|
    ensures var t := AfterSubscribe(s, c, h);
            && t.conns == s.conns && |t.connects| == |s.connects|
            && forall c' :: c' in Unvisited(s, k) ==> c' in Unvisited(t, k)
  {
    SubscribeShape(s, c, h);
    var r, n := AfterRegister(s, c, h), s.conns[k].owner;
    assert r.connects[n] == s.connects[n] || r.connects[n] == AddPending(s.connects[n], c);
  }

  /** A call that waits on a LISTEN or has it, and whose Set is registered after another subscribe, was so before. */
  lemma SubscribeKeepsCurrent(s: State, c: Channel, h: Handler)
    requires Typed(s)
    ensures var t := AfterSubscribe(s, c, h);
            forall i :: 0 <= i < |t.calls| && Current(t, i) && OnConnection(t.calls[i].pc) ==>
              i < |s.calls| && t.calls[i] == s.calls[i] && Current(s, i)
  {
    SubscribeShape(s, c, h);
    var t := AfterSubscribe(s, c, h);
    forall i | 0 <= i < |t.calls| && Current(t, i) && OnConnection(t.calls[i].pc)
      ensures i < |s.calls| && t.calls[i] == s.calls[i] && Current(s, i)
    {
      assert i < |s.calls| && t.calls[i] == s.calls[i];
      assert s.calls[i].setId < |s.sets|;
    }
  }

  lemma SubscribeRefines(s: State, c: Channel, h: Handler)
    requires Accounted(s) && Refines(s)
    ensures Accounted(AfterSubscribe(s, c, h)) && Refines(AfterSubscribe(s, c, h))
  {
    AccountsSubscribe(s, c, h);
    SubscribeShape(s, c, h);
    SubscribeKeepsCurrent(s, c, h);
    var t := AfterSubscribe(s, c, h);
    if s.client.Some? {
      SubscribeKeepsUnvisited(s, c, h, s.client.value);
    }
    RefinesFrame(s, t);
  }

  lemma RemoveKeepsUnvisited(s: State, a: SetId, c: Channel, h: Handler)
    requires a < |s.sets|
    ensures var t := AfterRemove(s, a, c, h);
            && t.client == s.client && t.conns == s.conns && |t.connects| == |s.connects|
            && forall n, c' :: 0 <= n < |s.connects| && c' in t.handlers ==>
                 && (s.connects[n].Looping? ==>
                       t.connects[n].Looping? && (c' in s.connects[n].pending ==> c' in t.connects[n].pending))
                 && (s.connects[n].Threw? ==>
                       t.connects[n].Threw? && (c' in s.connects[n].missed ==> c' in t.connects[n].missed))
  {
  }

  lemma RemoveRefines(s: State, a: SetId, i: CallId, pc: Pc)
    requires Accounted(s) && Refines(s) && i < |s.calls| && a < |s.sets|
    requires !pc.Subscribed? && !pc.AwaitListen?
    requires Accounted(SetPc(AfterRemove(s, a, s.calls[i].channel, s.calls[i].handler), i, pc))
    ensures Refines(SetPc(AfterRemove(s, a, s.calls[i].channel, s.calls[i].handler), i, pc))
  {
    var s1 := AfterRemove(s, a, s.calls[i].channel, s.calls[i].handler);
    var t := SetPc(s1, i, pc);
    RemoveShrinks(s, a, s.calls[i].channel, s.calls[i].handler);
    RemoveKeepsUnvisited(s, a, s.calls[i].channel, s.calls[i].handler);
    assert t.handlers == s1.handlers && t.connects == s1.connects && t.conns == s1.conns && t.client == s1.client;
    forall w | 0 <= w < |t.calls| && Current(t, w) && OnConnection(t.calls[w].pc)
      ensures Current(s, w) && t.calls[w] == s.calls[w]
    {
    }
    RefinesFrame(s, t);
  }

  /** UNLISTEN of one channel leaves what the queue does to another alone. */
  lemma UnlistenKeepsCall(s: State, k: ConnId, c: Channel, i: CallId)
    requires k < |s.conns| && s.conns[k].owner < |s.connects| && i < |s.calls|
    requires CallCovered(s, k, i) && s.calls[i].channel != c
    ensures CallCovered(Enqueue(s, k, Unlisten(c)), k, i)
  {
    var c' := s.calls[i].channel;
    DrainsSnoc(c', c' in s.conns[k].listening, s.conns[k].queue, Unlisten(c), false);
  }

  lemma UnlistenRefines(s: State, k: ConnId, c: Channel)
    requires Accounted(s) && Refines(s) && s.client == Some(k) && c !in s.handlers
    requires Accounted(Enqueue(s, k, Unlisten(c)))
    ensures Refines(Enqueue(s, k, Unlisten(c)))
  {
    var t := Enqueue(s, k, Unlisten(c));
    assert t.calls == s.calls && t.handlers == s.handlers;
    forall i | 0 <= i < |t.calls| && Current(t, i)
      ensures WaitsOnClient(t, i)
      ensures t.conns[k].alive ==> CallCovered(t, k, i)
    {
      assert Current(s, i) && WaitsOnClient(s, i);
      if s.conns[k].alive {
        UnlistenKeepsCall(s, k, c, i);
      }
    }
  }

  lemma RemovedRefines(s: State, i: CallId)
    requires Sound(s) && Refines(s) && i < |s.calls| && !s.calls[i].pc.AwaitListen? && s.calls[i].channel in s.handlers
    ensures var call := s.calls[i];
            var t := SetPc(AfterRemove(s, s.handlers[call.channel], call.channel, call.handler), i, Unsubscribed);
            Accounted(t) && Refines(t)
  {
    var a := s.handlers[s.calls[i].channel];
    RemoveAndEnd(s, a, i, Unsubscribed);
    RemoveRefines(s, a, i, Unsubscribed);
  }

  lemma EndRefines(s: State, i: CallId, pc: Pc)
    requires Accounted(s) && Refines(s) && i < |s.calls| && !OnConnection(pc)
    ensures Accounted(SetPc(s, i, pc)) && Refines(SetPc(s, i, pc))
  {
    SetPcAccounts(s, i, pc);
    RefinesFrame(s, SetPc(s, i, pc));
  }

  lemma ThenUnlistenRefines(s: State, c: Channel)
    requires Accounted(s) && Refines(s) && s.client.Some? && c !in s.handlers
    ensures var t := Enqueue(s, s.client.value, Unlisten(c)); Accounted(t) && Refines(t)
  {
    EnqueueAccounts(s, s.client.value, Unlisten(c));
    UnlistenRefines(s, s.client.value, c);
  }

  lemma UnsubscribeRefines(s: State, i: CallId)
    requires Sound(s) && Refines(s) && Enabled(s, Unsubscribe(i))
    ensures Accounted(AfterUnsubscribe(s, i)) && Refines(AfterUnsubscribe(s, i))
  {
    var call := s.calls[i];
    if call.channel !in s.handlers {
      EndRefines(s, i, Unsubscribed);
    } else {
      var a := s.handlers[call.channel];
      RemovedRefines(s, i);
      UnsubscribeShape(s, i);
      if s.sets[a].members - {call.handler} == {} && s.client.Some? {
        ThenUnlistenRefines(SetPc(AfterRemove(s, a, call.channel, call.handler), i, Unsubscribed), call.channel);
      }
    }
  }

  lemma SendListenFresh(s: State, i: CallId, k: ConnId)
    requires Sound(s) && i < |s.calls| && !s.calls[i].pc.AwaitListen? && k < |s.conns|
    ensures Listen(s.calls[i].channel, Subscriber(i)) !in s.conns[k].queue
  {
    forall j | 0 <= j < |s.conns[k].queue|
      ensures s.conns[k].queue[j] != Listen(s.calls[i].channel, Subscriber(i))
    {
      assert Awaited(s, k, s.conns[k].queue[j]);
    }
  }

  lemma SendListenKeepsCall(s: State, i: CallId, k: ConnId, w: CallId)
    requires Typed(s) && i < |s.calls| && w < |s.calls| && s.client == Some(k) && s.conns[k].owner < |s.connects|
    requires Listen(s.calls[i].channel, Subscriber(i)) !in s.conns[k].queue
    requires CallCovered(s, k, w)
    ensures CallCovered(AfterSendListen(s, i), k, w)
  {
    var t := AfterSendListen(s, i);
    var cmd, q, c := Listen(s.calls[i].channel, Subscriber(i)), s.conns[k].queue, s.calls[w].channel;
    assert t.conns[k].queue == q + [cmd] && t.conns[k].listening == s.conns[k].listening && t.connects == s.connects;
    DrainsSnoc(c, c in s.conns[k].listening, q, cmd, false);
    if w == i {
      assert (q + [cmd])[|q|] == cmd;
    }
  }

  lemma SendListenRefines(s: State, i: CallId)
    requires Sound(s) && Refines(s) && Enabled(s, SendListen(i))
    ensures Accounted(AfterSendListen(s, i)) && Refines(AfterSendListen(s, i))
  {
    AccountsSendListen(s, i);
    var t := AfterSendListen(s, i);
    assert t.client == s.client && t.handlers == s.handlers && |t.calls| == |s.calls|;
    forall w | 0 <= w < |t.calls| && Current(t, w)
      ensures WaitsOnClient(t, w)
      ensures t.client.Some? && t.conns[t.client.value].alive ==> CallCovered(t, t.client.value, w)
    {
      assert Current(s, w) && WaitsOnClient(s, w);
      if s.client.Some? && s.conns[s.client.value].alive {
        SendListenFresh(s, i, s.client.value);
        SendListenKeepsCall(s, i, s.client.value, w);
      }
    }
  }

  lemma PoolOkRefines(s: State, n: ConnectId, leftover: set<Channel>)
    requires Sound(s) && Refines(s) && Enabled(s, PoolOk(n, leftover))
    ensures Accounted(AfterPoolOk(s, n, leftover)) && Refines(AfterPoolOk(s, n, leftover))
  {
    AccountsPoolOk(s, n, leftover);
    var t := AfterPoolOk(s, n, leftover);
    var k := |s.conns|;
    assert s.client.None?;
    assert t.connects[n] == Looping(k, s.keys, None) && t.conns[k].owner == n;
    assert Unvisited(t, k) == s.keys;
    forall i | 0 <= i < |t.calls| && Current(t, i)
      ensures CallCovered(t, k, i) && WaitsOnClient(t, i)
    {
      assert s.calls[i].channel in s.keys;
      assert Current(s, i) && WaitsOnClient(s, i);
      if s.calls[i].pc.AwaitListen? {
        assert s.calls[i].pc.conn < |s.conns|;
      }
    }
  }

  lemma ConnectEndsRefines(s: State, n: ConnectId, phase: Connect, pc: Pc)
    requires Accounted(s) && Refines(s) && n < |s.connects| && s.connects[n].Active()
    requires !phase.Active() && phase.Held() == s.connects[n].Held()
    requires !pc.Subscribed? && !pc.AwaitListen?
    requires s.connects[n].Looping? ==> s.connects[n].pending == []
    ensures Accounted(AfterConnectEnds(s, n, phase, pc)) && Refines(AfterConnectEnds(s, n, phase, pc))
  {
    AccountsConnectEnds(s, n, phase, pc);
    RefinesFrame(s, AfterConnectEnds(s, n, phase, pc));
  }

  lemma SendRelistenRefines(s: State, n: ConnectId)
    requires Accounted(s) && Refines(s) && Enabled(s, SendRelisten(n))
    ensures Accounted(AfterSendRelisten(s, n)) && Refines(AfterSendRelisten(s, n))
  {
    AccountsSendRelisten(s, n);
    var t := AfterSendRelisten(s, n);
    var p := s.connects[n];
    var cmd := Listen(p.pending[0], Loop(n));
    if s.client.Some? {
      var k := s.client.value;
      assert s.client == p.Held() && s.conns[k].owner == n;
      assert t.conns[k].queue == s.conns[k].queue + [cmd] && t.conns[k].listening == s.conns[k].listening;
      assert Unvisited(t, k) == p.pending[1..] && Unvisited(s, k) == p.pending;
      forall i | 0 <= i < |t.calls| && Current(t, i) && t.conns[k].alive
        ensures CallCovered(t, k, i)
      {
        var c := s.calls[i].channel;
        assert Current(s, i) && CallCovered(s, k, i);
        DrainsSnoc(c, c in s.conns[k].listening, s.conns[k].queue, cmd, false);
      }
    }
    forall i | 0 <= i < |t.calls| && Current(t, i)
      ensures WaitsOnClient(t, i)
    {
      assert Current(s, i) && WaitsOnClient(s, i);
    }
  }

  /** What k's loop no longer owes, k listens to. */
  predicate OwesNoLess(s: State, t: State, k: ConnId)
    requires k < |s.conns| && s.conns[k].owner < |s.connects| && k < |t.conns| && t.conns[k].owner < |t.connects|
  {
    forall c :: c in Unvisited(s, k) ==> c in Unvisited(t, k) || c in t.conns[k].listening
  }

  /** What a command does to a connection's listen set when it runs, or nothing when it is refused. */
  ghost predicate HeadTaken(s: State, k: ConnId, t: State)
    requires Accounted(s) && Accounted(t)
  {
    && k < |s.conns| == |t.conns| && s.conns[k].queue != []
    && t.conns == Dequeue(s, k, t.conns[k].listening).conns
    && t.client == s.client && t.handlers == s.handlers && |t.calls| == |s.calls|
    && (forall i :: 0 <= i < |s.calls| ==> CallAfterHead(s, k, t, i))
    && (forall c :: c in s.handlers && Effect(c, c in s.conns[k].listening, s.conns[k].queue[0], false) ==>
          c in t.conns[k].listening || (s.client == Some(k) ==> c in Unvisited(t, k)))
    && (s.client.Some? ==> OwesNoLess(s, t, s.client.value))
  }

  /** A call moves on exactly when the head was its LISTEN, or the connect() it waits for ended. */
  ghost predicate CallAfterHead(s: State, k: ConnId, t: State, i: CallId)
    requires i < |s.calls| == |t.calls| && k < |s.conns| == |t.conns| && s.conns[k].queue != []
  {
    && t.calls[i].channel == s.calls[i].channel && t.calls[i].setId == s.calls[i].setId
    && if s.conns[k].queue[0] == Listen(s.calls[i].channel, Subscriber(i)) then
         && s.calls[i].pc == AwaitListen(k)
         && (t.calls[i].pc.Throwing?
             || (t.calls[i].pc.Subscribed? && s.calls[i].channel in t.conns[k].listening && s.conns[k].alive))
       else t.calls[i].pc == s.calls[i].pc || (s.calls[i].pc.AwaitConnect? && t.calls[i].pc.Throwing?)
  }

  lemma QueuedTail(q: seq<Command>, c: Channel, i: CallId)
    requires Queued(q, c, i) && q[0] != Listen(c, Subscriber(i))
    ensures Queued(q[1..], c, i)
  {
    assert q == [q[0]] + q[1..];
  }

  lemma ListenedStaysCovered(t: State, k: ConnId, c: Channel)
    requires k < |t.conns| && t.conns[k].owner < |t.connects|
    requires c in t.conns[k].listening || c in Unvisited(t, k)
    requires Unlisten(c) !in t.conns[k].queue
    ensures CoveredForGood(t, k, c)
  {
    if c in t.conns[k].listening {
      NoUnlistenDrains(c, t.conns[k].queue);
    }
  }

  lemma HeadKeepsCovered(s: State, k: ConnId, t: State, c: Channel)
    requires Accounted(s) && Accounted(t) && HeadTaken(s, k, t)
    requires s.client == Some(k) && c in s.handlers && CoveredForGood(s, k, c)
    ensures CoveredForGood(t, k, c)
  {
    var q := s.conns[k].queue;
    assert t.conns[k].queue == q[1..] && Unlisten(c) !in q[1..];
    var on0 := Effect(c, c in s.conns[k].listening, q[0], false);
    if on0 || c in Unvisited(s, k) {
      ListenedStaysCovered(t, k, c);
    } else {
      assert Drains(c, false, q[1..], false);
      DrainsMonotone(c, false, c in t.conns[k].listening, q[1..], false, false);
    }
  }

  lemma HeadKeepsCall(s: State, k: ConnId, t: State, i: CallId)
    requires Accounted(s) && Accounted(t) && HeadTaken(s, k, t) && i < |s.calls|
    requires s.client == Some(k) && s.calls[i].channel in s.handlers && CallCovered(s, k, i)
    ensures CallCovered(t, k, i)
  {
    var q, c := s.conns[k].queue, s.calls[i].channel;
    assert CallAfterHead(s, k, t, i);
    if q[0] == Listen(c, Subscriber(i)) {
      assert Unlisten(c) !in q[1..];
      if t.calls[i].pc.Subscribed? { ListenedStaysCovered(t, k, c); }
    } else if s.calls[i].pc == AwaitListen(k) {
      QueuedTail(q, c, i);
    } else if s.calls[i].pc.Subscribed? || s.calls[i].pc.AwaitListen? {
      HeadKeepsCovered(s, k, t, c);
    }
  }

  lemma ElsewhereKeepsCovered(s: State, t: State, k: ConnId, c: Channel)
    requires k < |s.conns| == |t.conns| && s.conns[k].owner < |s.connects| && t.conns[k].owner < |t.connects|
    requires t.conns[k] == s.conns[k] && OwesNoLess(s, t, k) && CoveredForGood(s, k, c)
    ensures CoveredForGood(t, k, c)
  {
    if c in Unvisited(s, k) {
      ListenedStaysCovered(t, k, c);
    }
  }

  lemma HeadElsewhereKeepsCall(s: State, k: ConnId, t: State, i: CallId)
    requires Accounted(s) && Accounted(t) && HeadTaken(s, k, t) && i < |s.calls|
    requires s.client.Some? && s.client != Some(k) && Current(s, i) && WaitsOnClient(s, i)
    requires CallCovered(s, s.client.value, i)
    ensures CallCovered(t, s.client.value, i)
  {
    assert CallAfterHead(s, k, t, i);
    assert t.conns[s.client.value] == s.conns[s.client.value];
    if s.calls[i].pc.Subscribed? || (s.calls[i].pc.AwaitListen? && s.calls[i].pc != AwaitListen(s.client.value)) {
      ElsewhereKeepsCovered(s, t, s.client.value, s.calls[i].channel);
    }
  }

  lemma HeadRefines(s: State, k: ConnId, t: State)
    requires Accounted(s) && Refines(s) && Accounted(t) && HeadTaken(s, k, t)
    ensures Refines(t)
  {
    forall i | 0 <= i < |t.calls| && Current(t, i)
      ensures WaitsOnClient(t, i)
      ensures t.client.Some? && t.conns[t.client.value].alive ==> CallCovered(t, t.client.value, i)
    {
      assert CallAfterHead(s, k, t, i);
      assert Current(s, i) && WaitsOnClient(s, i);
      if s.client.Some? && s.conns[s.client.value].alive {
        assert CallCovered(s, s.client.value, i);
        if s.client == Some(k) {
          HeadKeepsCall(s, k, t, i);
        } else {
          HeadElsewhereKeepsCall(s, k, t, i);
        }
      }
    }
  }

  /** The head was no subscribe's LISTEN, and no call moves. */
  lemma SameCallsAfterHead(s: State, k: ConnId, t: State)
    requires k < |s.conns| == |t.conns| && s.conns[k].queue != [] && t.calls == s.calls
    requires s.conns[k].queue[0].Listen? ==> s.conns[k].queue[0].from.Loop?
    ensures forall i :: 0 <= i < |s.calls| ==> CallAfterHead(s, k, t, i)
  {
  }

  /** The head was the LISTEN of call i, and only that call moves. */
  lemma OneCallAfterHead(s: State, k: ConnId, t: State, i: CallId)
    requires k < |s.conns| == |t.conns| && s.conns[k].queue != [] && i < |s.calls| == |t.calls|
    requires s.conns[k].queue[0] == Listen(s.calls[i].channel, Subscriber(i)) && s.calls[i].pc == AwaitListen(k)
    requires t.calls == s.calls[i := s.calls[i].(pc := t.calls[i].pc)]
    requires t.calls[i].pc.Throwing?
          || (t.calls[i].pc.Subscribed? && s.calls[i].channel in t.conns[k].listening && s.conns[k].alive)
    ensures forall j :: 0 <= j < |s.calls| ==> CallAfterHead(s, k, t, j)
  {
  }

  lemma SameUnvisited(s: State, t: State)
    requires Owned(s) && t.connects == s.connects && |t.conns| == |s.conns|
    requires forall k :: 0 <= k < |s.conns| ==> t.conns[k].owner == s.conns[k].owner
    ensures forall k :: 0 <= k < |s.conns| ==> Unvisited(t, k) == Unvisited(s, k) && OwesNoLess(s, t, k)
  {
  }

  /** Only k's own list can lose the channel that k now listens to. */
  lemma ClearMissedOwes(s: State, k: ConnId, c: Channel)
    requires Owned(s) && k < |s.conns| && c in s.conns[k].listening
    ensures var t := ClearMissed(s, k, c);
            && t.conns == s.conns && |t.connects| == |s.connects|
            && forall j :: 0 <= j < |s.conns| ==> OwesNoLess(s, t, j)
  {
    var t := ClearMissed(s, k, c);
    forall j | 0 <= j < |s.conns| ensures OwesNoLess(s, t, j) {
      assert s.connects[s.conns[j].owner].Held() == Some(j) && s.connects[s.conns[k].owner].Held() == Some(k);
      if j != k { assert t.connects[s.conns[j].owner] == s.connects[s.conns[j].owner]; }
    }
  }

  /** The head was an UNLISTEN, run or refused: only the listen set may change. */
  lemma UnlistenHead(s: State, k: ConnId, listening: set<Channel>)
    requires Accounted(s) && k < |s.conns| && s.conns[k].queue != [] && s.conns[k].queue[0].Unlisten?
    requires Accounted(Dequeue(s, k, listening))
    requires forall c :: c in s.conns[k].listening && c != s.conns[k].queue[0].channel ==> c in listening
    ensures HeadTaken(s, k, Dequeue(s, k, listening))
  {
    var t := Dequeue(s, k, listening);
    assert t.calls == s.calls && t.connects == s.connects && t.conns[k].listening == listening;
    SameCallsAfterHead(s, k, t);
    SameUnvisited(s, t);
  }

  /** The head was the LISTEN of a subscribe call, which is answered or refused. */
  lemma ListenHead(s: State, k: ConnId, t: State, i: CallId)
    requires Accounted(s) && Accounted(t) && k < |s.conns| == |t.conns| && s.conns[k].queue != []
    requires i < |s.calls| == |t.calls|
    requires s.conns[k].queue[0] == Listen(s.calls[i].channel, Subscriber(i)) && s.calls[i].pc == AwaitListen(k)
    requires t.conns == Dequeue(s, k, t.conns[k].listening).conns && s.conns[k].listening <= t.conns[k].listening
    requires t.client == s.client && t.handlers == s.handlers
    requires t.calls == s.calls[i := s.calls[i].(pc := t.calls[i].pc)]
    requires t.calls[i].pc.Throwing?
          || (t.calls[i].pc.Subscribed? && s.calls[i].channel in t.conns[k].listening && s.conns[k].alive)
    requires forall j :: 0 <= j < |s.conns| ==> OwesNoLess(s, t, j)
    ensures HeadTaken(s, k, t)
  {
    OneCallAfterHead(s, k, t, i);
  }

  /** The answer of a LISTEN for c on k. */
  lemma AnsweredOwes(s: State, k: ConnId, c: Channel)
    requires Owned(s) && k < |s.conns| && s.conns[k].queue != []
    ensures var u := Answered(s, k, c);
            && u.conns == Dequeue(s, k, s.conns[k].listening + {c}).conns && |u.connects| == |s.connects|
            && forall j :: 0 <= j < |s.conns| ==> OwesNoLess(s, u, j)
  {
    var s1 := Dequeue(s, k, s.conns[k].listening + {c});
    assert Owned(s1);
    SameUnvisited(s, s1);
    ClearMissedOwes(s1, k, c);
  }

  lemma AnsweredFacts(s: State, k: ConnId, i: CallId)
    requires Owned(s) && k < |s.conns| && s.conns[k].queue != [] && i < |s.calls|
    requires s.conns[k].queue[0] == Listen(s.calls[i].channel, Subscriber(i))
    ensures var t := AfterExecute(s, k);
            && t.conns == Dequeue(s, k, s.conns[k].listening + {s.calls[i].channel}).conns
            && t.client == s.client && t.handlers == s.handlers && |t.connects| == |s.connects|
            && t.calls == s.calls[i := s.calls[i].(pc := Subscribed)]
            && forall j :: 0 <= j < |s.conns| ==> OwesNoLess(s, t, j)
  {
    AnsweredOwes(s, k, s.calls[i].channel);
    var u := Answered(s, k, s.calls[i].channel);
    assert AfterExecute(s, k) == SetPc(u, i, Subscribed);
  }

  lemma RefusedHead(s: State, k: ConnId, i: CallId)
    requires Accounted(s) && k < |s.conns| && s.conns[k].queue != [] && i < |s.calls|
    requires s.conns[k].queue[0] == Listen(s.calls[i].channel, Subscriber(i)) && s.calls[i].pc == AwaitListen(k)
    requires Accounted(AfterFail(s, k))
    ensures HeadTaken(s, k, AfterFail(s, k))
  {
    var t := AfterFail(s, k);
    assert t == SetPc(Dequeue(s, k, s.conns[k].listening), i, Throwing);
    SameUnvisited(s, t);
    ListenHead(s, k, t, i);
  }

  lemma AnsweredUnvisited(s: State, n: ConnectId, t: State)
    requires Owned(s) && n < |s.connects| && s.connects[n].Looping?
    requires t.connects == s.connects[n := s.connects[n].(sent := None)] && |t.conns| == |s.conns|
    requires forall k :: 0 <= k < |s.conns| ==> t.conns[k].owner == s.conns[k].owner
    ensures forall k :: 0 <= k < |s.conns| ==> Unvisited(t, k) == Unvisited(s, k) && OwesNoLess(s, t, k)
  {
  }

  /** The head was a LISTEN of the loop, and was answered. */
  lemma RelistenHead(s: State, k: ConnId, n: ConnectId, t: State)
    requires Accounted(s) && k < |s.conns| && s.conns[k].queue != [] && n < |s.connects| && s.connects[n].Looping?
    requires s.conns[k].queue[0].Listen? && s.conns[k].queue[0].from == Loop(n)
    requires var s1 := Dequeue(s, k, s.conns[k].listening + {s.conns[k].queue[0].channel});
             t == s1.(connects := s1.connects[n := s1.connects[n].(sent := None)])
    requires Accounted(t)
    ensures HeadTaken(s, k, t)
  {
    assert t.calls == s.calls && forall j :: 0 <= j < |s.conns| ==> t.conns[j].owner == s.conns[j].owner;
    SameCallsAfterHead(s, k, t);
    AnsweredUnvisited(s, n, t);
  }

  /** A refused re-LISTEN ends the loop; what it still owed and is not heard is remembered as missed. */
  lemma FailRelistenShape(s: State, k: ConnId, n: ConnectId)
    requires k < |s.conns| && s.conns[k].queue != [] && Awaited(s, k, s.conns[k].queue[0])
    requires s.conns[k].queue[0].Listen? && s.conns[k].queue[0].from == Loop(n)
    ensures var t := AfterFail(s, k);
            && t.handlers == s.handlers && t.client == s.client && |t.calls| == |s.calls|
            && t.conns == Dequeue(s, k, s.conns[k].listening).conns
            && |t.connects| == |s.connects| && t.connects[n].Threw?
            && (forall c :: c in t.connects[n].missed <==>
                  (c in s.connects[n].pending || (c in s.handlers && c == s.conns[k].queue[0].channel))
                  && c !in s.conns[k].listening)
  {
  }

  lemma FailRelistenCalls(s: State, k: ConnId, n: ConnectId)
    requires k < |s.conns| && s.conns[k].queue != [] && Awaited(s, k, s.conns[k].queue[0])
    requires s.conns[k].queue[0].Listen? && s.conns[k].queue[0].from == Loop(n)
    ensures var t := AfterFail(s, k);
            && |t.calls| == |s.calls| && |t.conns| == |s.conns|
            && forall i :: 0 <= i < |s.calls| ==> CallAfterHead(s, k, t, i)
  {
    assert AfterFail(s, k).calls == Resume(s.calls, n, Throwing);
  }

  /** The connection of the loop that threw owes what it owed before, and the refused channel. */
  lemma FailRelistenOwes(s: State, k: ConnId, n: ConnectId)
    requires k < |s.conns| && s.conns[k].queue != [] && Awaited(s, k, s.conns[k].queue[0]) && s.conns[k].owner == n
    requires s.conns[k].queue[0].Listen? && s.conns[k].queue[0].from == Loop(n)
    ensures var t := AfterFail(s, k);
            && |t.conns| == |s.conns| && |t.connects| == |s.connects| && t.conns[k].owner == n
            && OwesNoLess(s, t, k)
            && (s.conns[k].queue[0].channel in s.handlers ==>
                  s.conns[k].queue[0].channel in Unvisited(t, k) || s.conns[k].queue[0].channel in t.conns[k].listening)
  {
    FailRelistenShape(s, k, n);
  }

  lemma EffectOfListen(c: Channel, on: bool, cmd: Command)
    requires cmd.Listen? && Effect(c, on, cmd, false)
    ensures on || c == cmd.channel
  {
  }

  lemma FailRelistenHead(s: State, k: ConnId)
    requires Accounted(s) && k < |s.conns| && s.conns[k].queue != [] && Awaited(s, k, s.conns[k].queue[0])
    requires s.conns[k].queue[0].Listen? && s.conns[k].queue[0].from.Loop?
    requires Accounted(AfterFail(s, k))
    ensures HeadTaken(s, k, AfterFail(s, k))
  {
    var t, n := AfterFail(s, k), s.conns[k].queue[0].from.connect;
    FailRelistenShape(s, k, n);
    FailRelistenCalls(s, k, n);
    assert s.connects[n].Held() == Some(k) && s.conns[k].owner == n;
    assert s.client.None? || s.client == Some(k);
    FailRelistenOwes(s, k, n);
    forall c | c in s.handlers && Effect(c, c in s.conns[k].listening, s.conns[k].queue[0], false)
      ensures c in t.conns[k].listening || c in Unvisited(t, k)
    {
      EffectOfListen(c, c in s.conns[k].listening, s.conns[k].queue[0]);
    }
  }

  lemma CloseRefines(s: State)
    requires Accounted(s) && Refines(s)
    ensures Accounted(AfterClose(s)) && Refines(AfterClose(s))
  {
    AccountsClose(s);
  }

  lemma DropKeepsCall(s: State, k: ConnId, k': ConnId, i: CallId)
    requires k < |s.conns| && k' < |s.conns| && k' != k && s.conns[k'].owner < |s.connects| && i < |s.calls|
    requires CallCovered(s, k', i)
    ensures CallCovered(AfterDrop(s, k), k', i)
  {
  }

  lemma DropRefines(s: State, k: ConnId)
    requires Accounted(s) && Refines(s) && Enabled(s, Drop(k)) && Accounted(AfterDrop(s, k))
    ensures Refines(AfterDrop(s, k))
  {
    var t := AfterDrop(s, k);
    assert t.calls == s.calls && t.handlers == s.handlers && t.client == s.client;
    forall i | 0 <= i < |t.calls| && Current(t, i)
      ensures WaitsOnClient(t, i)
      ensures t.client.Some? && t.conns[t.client.value].alive ==> CallCovered(t, t.client.value, i)
    {
      assert Current(s, i) && WaitsOnClient(s, i);
      if t.client.Some? && t.conns[t.client.value].alive {
        DropKeepsCall(s, k, t.client.value, i);
      }
    }
  }

  lemma ErrorEventRefines(s: State, k: ConnId)
    requires Accounted(s) && Refines(s) && Enabled(s, ErrorEvent(k))
    ensures Accounted(AfterErrorEvent(s, k)) && Refines(AfterErrorEvent(s, k))
  {
    AccountsErrorEvent(s, k);
    var t := AfterErrorEvent(s, k);
    if !s.closed {
      assert s.client == Some(k) && t.client.None?;
      forall i | 0 <= i < |t.calls| && Current(t, i)
        ensures WaitsOnClient(t, i)
      {
        assert Current(s, i) && WaitsOnClient(s, i);
      }
    }
  }

  lemma ExecuteRefines(s: State, k: ConnId)
    requires Sound(s) && Refines(s) && Enabled(s, Execute(k))
    ensures Accounted(AfterExecute(s, k)) && Refines(AfterExecute(s, k))
  {
    assert Awaited(s, k, s.conns[k].queue[0]);
    AccountsExecute(s, k);
    match s.conns[k].queue[0] {
      case Unlisten(c) => UnlistenHead(s, k, s.conns[k].listening - {c});
      case Listen(c, Subscriber(i)) =>
        AnsweredFacts(s, k, i);
        ListenHead(s, k, AfterExecute(s, k), i);
      case Listen(c, Loop(n)) => RelistenHead(s, k, n, AfterExecute(s, k));
    }
    HeadRefines(s, k, AfterExecute(s, k));
  }

  lemma FailRefines(s: State, k: ConnId)
    requires Sound(s) && Refines(s) && Enabled(s, Fail(k))
    ensures Accounted(AfterFail(s, k)) && Refines(AfterFail(s, k))
  {
    assert Awaited(s, k, s.conns[k].queue[0]);
    AccountsFail(s, k);
    match s.conns[k].queue[0] {
      case Unlisten(c) => UnlistenHead(s, k, s.conns[k].listening);
      case Listen(c, Subscriber(i)) => RefusedHead(s, k, i);
      case Listen(c, Loop(n)) => FailRelistenHead(s, k);
    }
    HeadRefines(s, k, AfterFail(s, k));
  }

  lemma CatchRefines(s: State, i: CallId)
    requires Sound(s) && Refines(s) && Enabled(s, Catch(i))
    ensures Accounted(AfterCatch(s, i)) && Refines(AfterCatch(s, i))
  {
    AccountsCatch(s, i);
    CatchShape(s, i);
    RemoveRefines(s, s.calls[i].setId, i, Failed);
  }

  lemma StepKeepsRefines(s: State, step: Step)
    requires Sound(s) && Refines(s) && Enabled(s, step)
    ensures Sound(Next(s, step)) && Refines(Next(s, step))
  {
    StepKeepsSound(s, step);
    match step
    case Subscribe(c, h) => SubscribeRefines(s, c, h);
    case SendListen(i) => SendListenRefines(s, i);
    case Catch(i) => CatchRefines(s, i);
    case Unsubscribe(i) => UnsubscribeRefines(s, i);
    case Close => CloseRefines(s);
    case PoolOk(n, leftover) => PoolOkRefines(s, n, leftover);
    case PoolFail(n) => ConnectEndsRefines(s, n, PoolFailed, Throwing);
    case SendRelisten(n) => SendRelistenRefines(s, n);
    case FinishLoop(n) => ConnectEndsRefines(s, n, Resolved(s.connects[n].conn), Ready);
    case Execute(k) => ExecuteRefines(s, k);
    case Fail(k) => FailRefines(s, k);
    case Drop(k) => DropRefines(s, k);
    case ErrorEvent(k) => ErrorEventRefines(s, k);
  }
}
