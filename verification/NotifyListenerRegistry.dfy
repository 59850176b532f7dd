/** The handler registry and the command queues: invariants of every step. */
module NotifyListenerRegistry {
  import opened Base
  import opened NotifyListener
  import opened NotifyListenerInvariants

  // ---- the registry ----

  ghost predicate Witness(s: State, a: SetId, h: Handler, i: CallId) {
    i < |s.calls| && s.calls[i].setId == a && s.calls[i].handler == h && s.calls[i].pc.Live()
  }

  ghost predicate Witnessed(s: State, a: SetId, h: Handler) {
    exists i :: Witness(s, a, h, i)
  }

  /**
   * The map's insertion order lists its keys once each, no registered set is empty,
   * and every registered handler stems from a subscribe that is still live.
   */
  ghost predicate Registry(s: State)
    requires Typed(s)
  {
    && RegistryShape(s)
    && (forall c, h :: c in s.handlers && h in s.sets[s.handlers[c]].members ==> Witnessed(s, s.handlers[c], h))
  }

  ghost predicate RegistryShape(s: State)
    requires Typed(s)
  {
    && (forall c :: c in s.handlers <==> c in s.keys)
    && NoDuplicates(s.keys)
    && (forall c :: c in s.handlers ==> s.sets[s.handlers[c]].channel == c && s.sets[s.handlers[c]].members != {})
    && (forall i :: 0 <= i < |s.calls| ==> s.sets[s.calls[i].setId].channel == s.calls[i].channel)
  }

  /** Every call keeps its identity, and a live one stays live. */
  ghost predicate CallsKept(s: State, t: State) {
    && |s.calls| <= |t.calls|
    && forall i :: 0 <= i < |s.calls| ==>
         && t.calls[i].channel == s.calls[i].channel && t.calls[i].handler == s.calls[i].handler
         && t.calls[i].setId == s.calls[i].setId && (s.calls[i].pc.Live() ==> t.calls[i].pc.Live())
  }

  lemma RegistryFrame(s: State, t: State)
    requires Typed(s) && Typed(t) && Registry(s) && CallsKept(s, t) && |t.calls| == |s.calls|
    requires t.handlers == s.handlers && t.keys == s.keys && t.sets == s.sets
    ensures Registry(t)
  {
    forall c, h | c in t.handlers && h in t.sets[t.handlers[c]].members
      ensures Witnessed(t, t.handlers[c], h)
    {
      var i: CallId :| Witness(s, s.handlers[c], h, i);
      assert Witness(t, t.handlers[c], h, i);
    }
  }

  lemma SetPcRegistry(s: State, i: CallId, pc: Pc)
    requires Typed(s) && Registry(s) && i < |s.calls| && pc.Live()
    ensures Typed(SetPc(s, i, pc)) && Registry(SetPc(s, i, pc))
  {
    RegistryFrame(s, SetPc(s, i, pc));
  }

  lemma SameCallsRegistry(s: State, t: State)
    requires Typed(s) && Typed(t) && Registry(s)
    requires t.calls == s.calls && t.handlers == s.handlers && t.keys == s.keys && t.sets == s.sets
    ensures Registry(t)
  {
    RegistryFrame(s, t);
  }

  // ---- the queues ----

  /** What a queued LISTEN says about the call or the loop that waits for it. */
  ghost predicate Awaited(s: State, k: ConnId, cmd: Command) {
    match cmd
    case Unlisten(_) => true
    case Listen(c, Subscriber(i)) =>
      i < |s.calls| && s.calls[i].pc == AwaitListen(k) && s.calls[i].channel == c
    case Listen(c, Loop(n)) =>
      n < |s.connects| && s.connects[n].Looping? && s.connects[n].conn == k && s.connects[n].sent == Some(c)
  }

  ghost predicate Queues(s: State) {
    && (forall k, j :: 0 <= k < |s.conns| && 0 <= j < |s.conns[k].queue| ==> Awaited(s, k, s.conns[k].queue[j]))
    && (forall k :: 0 <= k < |s.conns| ==> OneEach(s.conns[k].queue))
    && (forall i :: 0 <= i < |s.calls| && s.calls[i].pc.AwaitListen? ==>
          && s.calls[i].pc.conn < |s.conns|
          && Listen(s.calls[i].channel, Subscriber(i)) in s.conns[s.calls[i].pc.conn].queue)
  }

  /** No two LISTENs of a queue are awaited by the same party. */
  ghost predicate OneEach(q: seq<Command>) {
    forall j, j' :: 0 <= j < j' < |q| && q[j].Listen? && q[j'].Listen? ==> q[j].from != q[j'].from
  }

  ghost predicate Sound(s: State) {
    Accounted(s) && Registry(s) && Queues(s)
  }

  /** Queues only look at the queues, at waiting calls and at the LISTEN a loop waits for. */
  lemma QueuesFrame(s: State, t: State)
    requires Queues(s) && |t.conns| >= |s.conns| && |t.calls| >= |s.calls| && |t.connects| >= |s.connects|
    requires forall k :: 0 <= k < |s.conns| ==> t.conns[k].queue == s.conns[k].queue
    requires forall k :: |s.conns| <= k < |t.conns| ==> t.conns[k].queue == []
    requires forall i :: 0 <= i < |s.calls| ==> t.calls[i].channel == s.calls[i].channel
    requires forall i :: 0 <= i < |s.calls| && s.calls[i].pc.AwaitListen? ==> t.calls[i].pc == s.calls[i].pc
    requires forall i :: 0 <= i < |t.calls| && t.calls[i].pc.AwaitListen? ==>
               i < |s.calls| && t.calls[i].pc == s.calls[i].pc
    requires forall n :: 0 <= n < |s.connects| && s.connects[n].Looping? && s.connects[n].sent.Some? ==>
               && t.connects[n].Looping? && t.connects[n].conn == s.connects[n].conn
               && t.connects[n].sent == s.connects[n].sent
    ensures Queues(t)
  {
    forall k, j | 0 <= k < |t.conns| && 0 <= j < |t.conns[k].queue|
      ensures Awaited(t, k, t.conns[k].queue[j])
    {
      assert Awaited(s, k, s.conns[k].queue[j]);
    }
  }

  lemma RegisterShape(s: State, c: Channel, h: Handler)
    requires Typed(s) && RegistryShape(s) && Typed(AfterRegister(s, c, h))
    ensures RegistryShape(AfterRegister(s, c, h))
  {
    if c !in s.handlers {
      assert c !in s.keys;
    }
  }

  lemma RegisterAddsOne(s: State, c: Channel, h: Handler)
    requires Typed(s) && RegistryShape(s)
    ensures var t := AfterRegister(s, c, h);
            && c in t.handlers && t.handlers[c] < |t.sets|
            && h in t.sets[t.handlers[c]].members && t.sets[t.handlers[c]].channel == c
            && (forall c' :: c' in t.handlers && c' != c ==>
                  c' in s.handlers && t.handlers[c'] == s.handlers[c'] < |t.sets|
                  && t.sets[t.handlers[c']] == s.sets[s.handlers[c']])
            && (forall h' :: h' in t.sets[t.handlers[c]].members && h' != h ==>
                  c in s.handlers && t.handlers[c] == s.handlers[c] && h' in s.sets[s.handlers[c]].members)
  {
    if c in s.handlers {
      assert forall c' :: c' in s.handlers && c' != c ==> s.handlers[c'] != s.handlers[c];
    }
  }

  lemma RegisterKeeps(s: State, c: Channel, h: Handler)
    requires Sound(s)
    ensures var t := AfterRegister(s, c, h);
            && Typed(t) && Queues(t)
            && c in t.handlers && h in t.sets[t.handlers[c]].members && t.sets[t.handlers[c]].channel == c
            && RegistryShape(t)
            && (forall c', h' :: c' in t.handlers && h' in t.sets[t.handlers[c']].members && !(c' == c && h' == h) ==>
                  Witnessed(t, t.handlers[c'], h'))
  {
    var t := AfterRegister(s, c, h);
    AfterRegisterAccounts(s, c, h);
    SameAccountsKeep(s, t);
    RegisterShape(s, c, h);
    RegisterAddsOne(s, c, h);
    QueuesFrame(s, t);
    forall c', h' | c' in t.handlers && h' in t.sets[t.handlers[c']].members && !(c' == c && h' == h)
      ensures Witnessed(t, t.handlers[c'], h')
    {
      var i: CallId :| Witness(s, s.handlers[c'], h', i);
      assert Witness(t, t.handlers[c'], h', i);
    }
  }

  /** subscribe() registers, then adds one call that is ready or waits for the connect(). */
  lemma SubscribeShape(s: State, c: Channel, h: Handler)
    requires Typed(s)
    ensures var r, t := AfterRegister(s, c, h), AfterSubscribe(s, c, h);
            && t.handlers == r.handlers && t.sets == r.sets && t.closed == r.closed == s.closed
            && t.client == r.client == s.client && t.conns == r.conns == s.conns
            && |t.calls| == |s.calls| + 1 && t.calls[..|s.calls|] == s.calls
            && c in r.handlers && r.handlers[c] < |r.sets| && h in r.sets[r.handlers[c]].members
            && (s.client.Some? ==> t.connects == r.connects)
            && t.calls[|s.calls|].channel == c && t.calls[|s.calls|].handler == h
            && t.calls[|s.calls|].setId == r.handlers[c]
            && (t.calls[|s.calls|].pc.Ready? || t.calls[|s.calls|].pc.AwaitConnect?)
  {
  }

  lemma AddCallSound(s: State, call: Call)
    requires Typed(s) && RegistryShape(s) && Queues(s)
    requires call.channel in s.handlers && call.setId == s.handlers[call.channel]
    requires call.pc.Ready? || call.pc.AwaitConnect?
    requires forall c, h ::
               c in s.handlers && h in s.sets[s.handlers[c]].members && !(c == call.channel && h == call.handler) ==>
                 Witnessed(s, s.handlers[c], h)
    ensures var t := s.(calls := s.calls + [call]);
            Typed(t) && Registry(t) && Queues(t)
  {
    var t := s.(calls := s.calls + [call]);
    QueuesFrame(s, t);
    forall c, h | c in t.handlers && h in t.sets[t.handlers[c]].members
      ensures Witnessed(t, t.handlers[c], h)
    {
      if c == call.channel && h == call.handler {
        assert Witness(t, t.handlers[c], h, |s.calls|);
      } else {
        var i: CallId :| Witness(s, s.handlers[c], h, i);
        assert Witness(t, t.handlers[c], h, i);
      }
    }
  }

  /** Witnesses do not look at connects. */
  lemma SameWitnesses(s: State, t: State, c: Channel, h: Handler)
    requires Typed(s) && Typed(t) && t.calls == s.calls && t.handlers == s.handlers && t.sets == s.sets
    requires forall c', h' :: c' in s.handlers && h' in s.sets[s.handlers[c']].members && !(c' == c && h' == h) ==>
               Witnessed(s, s.handlers[c'], h')
    ensures forall c', h' :: c' in t.handlers && h' in t.sets[t.handlers[c']].members && !(c' == c && h' == h) ==>
              Witnessed(t, t.handlers[c'], h')
  {
    forall c', h' | c' in t.handlers && h' in t.sets[t.handlers[c']].members && !(c' == c && h' == h)
      ensures Witnessed(t, t.handlers[c'], h')
    {
      var i: CallId :| Witness(s, s.handlers[c'], h', i);
      assert Witness(t, t.handlers[c'], h', i);
    }
  }

  lemma StartConnectQueues(s: State)
    requires Queues(s)
    ensures Queues(StartConnect(s))
  {
    QueuesFrame(s, StartConnect(s));
  }

  lemma SubscribeSound(s: State, c: Channel, h: Handler)
    requires Sound(s)
    ensures Sound(AfterSubscribe(s, c, h))
  {
    AccountsSubscribe(s, c, h);
    RegisterKeeps(s, c, h);
    var s1 := AfterRegister(s, c, h);
    if s1.closed || s1.client.Some? {
      AddCallSound(s1, Call(c, h, s1.handlers[c], Ready));
    } else {
      var s2 := StartConnect(s1);
      StartConnectQueues(s1);
      SameWitnesses(s1, s2, c, h);
      AddCallSound(s2, Call(c, h, s2.handlers[c], AwaitConnect(s2.connecting.value)));
    }
  }

  /** handler.delete in one Set, and the map's entry with it when the Set is empty. */
  function AfterRemove(s: State, a: SetId, c: Channel, h: Handler): State
    requires a < |s.sets|
  {
    var left := s.sets[a].members - {h};
    var s1 := s.(sets := s.sets[a := s.sets[a].(members := left)]);
    if left == {} then DeleteKey(s1, c) else s1
  }

  lemma DeleteKeyShape(s: State, c: Channel)
    requires Typed(s) && Typed(DeleteKey(s, c)) && NoDuplicates(s.keys)
    requires forall c' :: c' in s.handlers <==> c' in s.keys
    requires forall c' :: c' in s.handlers ==>
        s.sets[s.handlers[c']].channel == c' && (c' != c ==> s.sets[s.handlers[c']].members != {})
    requires forall i :: 0 <= i < |s.calls| ==> s.sets[s.calls[i].setId].channel == s.calls[i].channel
    ensures RegistryShape(DeleteKey(s, c))
  {
    WithoutKeepsDistinct(s.keys, c);
  }

  lemma DeleteKeyQueues(s: State, c: Channel)
    requires Queues(s)
    ensures Queues(DeleteKey(s, c))
  {
    QueuesFrame(s, DeleteKey(s, c));
  }

  lemma RemoveKeepsShape(s: State, a: SetId, c: Channel, h: Handler)
    requires Sound(s) && a < |s.sets| && s.sets[a].channel == c
    ensures var t := AfterRemove(s, a, c, h);
            Accounted(t) && RegistryShape(t) && Queues(t)
  {
    var left := s.sets[a].members - {h};
    var s1 := s.(sets := s.sets[a := s.sets[a].(members := left)]);
    SameAccountsKeep(s, s1);
    QueuesFrame(s, s1);
    if left == {} {
      DeleteKeyAccounts(s1, c);
      DeleteKeyShape(s1, c);
      DeleteKeyQueues(s1, c);
    }
  }

  /** Call i ends; what is still registered was registered, and not by call i. */
  lemma EndKeepsWitnesses(s: State, t: State, i: CallId)
    requires Sound(s) && Typed(t) && RegistryShape(t) && i < |s.calls| == |t.calls|
    requires forall w :: 0 <= w < |s.calls| && w != i ==> t.calls[w] == s.calls[w]
    requires forall c :: c in t.handlers ==> c in s.handlers && t.handlers[c] == s.handlers[c]
    requires forall c :: c in t.handlers ==> t.sets[t.handlers[c]].members <= s.sets[t.handlers[c]].members
    requires s.calls[i].channel in t.handlers && t.handlers[s.calls[i].channel] == s.calls[i].setId ==>
               s.calls[i].handler !in t.sets[s.calls[i].setId].members
    ensures Registry(t)
  {
    forall c, h | c in t.handlers && h in t.sets[t.handlers[c]].members
      ensures Witnessed(t, t.handlers[c], h)
    {
      var w: CallId :| Witness(s, s.handlers[c], h, w);
      assert s.sets[s.calls[w].setId].channel == c;
      assert w != i;
      assert Witness(t, t.handlers[c], h, w);
    }
  }

  /** What AfterRemove does to the registry, in the form the witnesses need. */
  lemma RemoveShrinks(s: State, a: SetId, c: Channel, h: Handler)
    requires Typed(s) && a < |s.sets|
    ensures var t := AfterRemove(s, a, c, h);
            && t.calls == s.calls && |t.sets| == |s.sets|
            && (forall c' :: c' in t.handlers ==> c' in s.handlers && t.handlers[c'] == s.handlers[c'])
            && (forall b :: 0 <= b < |s.sets| ==> t.sets[b].members <= s.sets[b].members)
            && h !in t.sets[a].members
  {
  }

  lemma RemoveAndEnd(s: State, a: SetId, i: CallId, pc: Pc)
    requires Sound(s) && i < |s.calls| && a < |s.sets| && s.sets[a].channel == s.calls[i].channel
    requires s.calls[i].channel in s.handlers && s.calls[i].setId == s.handlers[s.calls[i].channel] ==>
        a == s.calls[i].setId
    requires !pc.Live() && !s.calls[i].pc.AwaitListen?
    ensures Sound(SetPc(AfterRemove(s, a, s.calls[i].channel, s.calls[i].handler), i, pc))
  {
    var c, h := s.calls[i].channel, s.calls[i].handler;
    var s1 := AfterRemove(s, a, c, h);
    RemoveKeepsShape(s, a, c, h);
    RemoveShrinks(s, a, c, h);
    var t := SetPc(s1, i, pc);
    SetPcAccounts(s1, i, pc);
    QueuesFrame(s1, t);
    assert t.sets == s1.sets && t.handlers == s1.handlers && t.keys == s1.keys;
    assert Registry(t) by { EndKeepsWitnesses(s, t, i); }
  }

  lemma CatchShape(s: State, i: CallId)
    requires i < |s.calls| && s.calls[i].setId < |s.sets|
    ensures var call := s.calls[i];
            AfterCatch(s, i) == SetPc(AfterRemove(s, call.setId, call.channel, call.handler), i, Failed)
  {
  }

  lemma CatchSound(s: State, i: CallId)
    requires Sound(s) && Enabled(s, Catch(i))
    ensures Sound(AfterCatch(s, i))
  {
    RemoveAndEnd(s, s.calls[i].setId, i, Failed);
  }

  /** The end of a call whose handler is in no registered set. */
  lemma EndSound(s: State, i: CallId, pc: Pc)
    requires Sound(s) && i < |s.calls| && !pc.AwaitListen? && !s.calls[i].pc.AwaitListen?
    requires s.calls[i].pc.Live() && !pc.Live() ==> s.calls[i].channel !in s.handlers
    ensures Sound(SetPc(s, i, pc))
  {
    var t := SetPc(s, i, pc);
    SetPcAccounts(s, i, pc);
    QueuesFrame(s, t);
    forall c, h | c in t.handlers && h in t.sets[t.handlers[c]].members
      ensures Witnessed(t, t.handlers[c], h)
    {
      var w: CallId :| Witness(s, s.handlers[c], h, w);
      assert s.sets[s.calls[w].setId].channel == c;
      assert Witness(t, t.handlers[c], h, w);
    }
  }

  /** A new command at the end of a queue, awaited by nobody else. */
  lemma EnqueueQueues(s: State, k: ConnId, cmd: Command, t: State)
    requires Queues(s) && k < |s.conns|
    requires t.conns == Enqueue(s, k, cmd).conns
    requires |t.calls| == |s.calls| && |t.connects| == |s.connects|
    requires Awaited(t, k, cmd)
    requires forall k', j :: 0 <= k' < |s.conns| && 0 <= j < |s.conns[k'].queue| ==>
        Awaited(t, k', s.conns[k'].queue[j])
    requires cmd.Listen? ==> forall j :: 0 <= j < |s.conns[k].queue| && s.conns[k].queue[j].Listen? ==>
               s.conns[k].queue[j].from != cmd.from
    requires forall i :: 0 <= i < |t.calls| && t.calls[i].pc.AwaitListen? ==>
               || (cmd == Listen(t.calls[i].channel, Subscriber(i)) && t.calls[i].pc == AwaitListen(k))
               || (s.calls[i].pc == t.calls[i].pc && s.calls[i].channel == t.calls[i].channel)
    ensures Queues(t)
  {
    forall k', j | 0 <= k' < |t.conns| && 0 <= j < |t.conns[k'].queue|
      ensures Awaited(t, k', t.conns[k'].queue[j])
    {
      if j < |s.conns[k'].queue| {
        assert t.conns[k'].queue[j] == s.conns[k'].queue[j];
      }
    }
    forall i | 0 <= i < |t.calls| && t.calls[i].pc.AwaitListen?
      ensures t.calls[i].pc.conn < |t.conns|
              && Listen(t.calls[i].channel, Subscriber(i)) in t.conns[t.calls[i].pc.conn].queue
    {
      if cmd == Listen(t.calls[i].channel, Subscriber(i)) && t.calls[i].pc == AwaitListen(k) {
        assert t.conns[k].queue[|s.conns[k].queue|] == cmd;
      } else {
        assert Listen(s.calls[i].channel, Subscriber(i)) in s.conns[s.calls[i].pc.conn].queue;
      }
    }
  }

  lemma UnlistenSound(s: State, k: ConnId, c: Channel)
    requires Sound(s) && k < |s.conns|
    ensures Sound(Enqueue(s, k, Unlisten(c)))
  {
    var t := Enqueue(s, k, Unlisten(c));
    EnqueueAccounts(s, k, Unlisten(c));
    EnqueueQueues(s, k, Unlisten(c), t);
    RegistryFrame(s, t);
  }

  /** unsubscribe() of a registered channel: remove, end the call, and UNLISTEN after the last handler. */
  lemma UnsubscribeShape(s: State, i: CallId)
    requires Typed(s) && i < |s.calls| && s.calls[i].channel in s.handlers
    ensures var c, h := s.calls[i].channel, s.calls[i].handler;
            var a := s.handlers[c];
            var t, left := SetPc(AfterRemove(s, a, c, h), i, Unsubscribed), s.sets[a].members - {h};
            && t.client == s.client && t.conns == s.conns
            && (left == {} ==> c !in t.handlers)
            && AfterUnsubscribe(s, i)
               == if left == {} && s.client.Some? then Enqueue(t, s.client.value, Unlisten(c)) else t
  {
  }

  lemma UnsubscribeSound(s: State, i: CallId)
    requires Sound(s) && Enabled(s, Unsubscribe(i))
    ensures Sound(AfterUnsubscribe(s, i))
  {
    var call := s.calls[i];
    if call.channel !in s.handlers {
      EndSound(s, i, Unsubscribed);
    } else {
      var a := s.handlers[call.channel];
      RemoveAndEnd(s, a, i, Unsubscribed);
      UnsubscribeShape(s, i);
      if s.sets[a].members - {call.handler} == {} && s.client.Some? {
        var t := SetPc(AfterRemove(s, a, call.channel, call.handler), i, Unsubscribed);
        UnlistenSound(t, s.client.value, call.channel);
      }
    }
  }

  lemma StillAwaited(s: State, t: State, k: ConnId, cmd: Command, i: CallId)
    requires Awaited(s, k, cmd) && i < |s.calls| == |t.calls| && !s.calls[i].pc.AwaitListen?
    requires t.connects == s.connects && forall j :: 0 <= j < |s.calls| && j != i ==> t.calls[j] == s.calls[j]
    ensures Awaited(t, k, cmd) && (cmd.Listen? ==> cmd.from != Subscriber(i))
  {
  }

  lemma SendListenQueues(s: State, i: CallId, k: ConnId)
    requires Sound(s) && Enabled(s, SendListen(i)) && s.client == Some(k)
    ensures Queues(AfterSendListen(s, i))
  {
    var t := AfterSendListen(s, i);
    var cmd := Listen(s.calls[i].channel, Subscriber(i));
    assert t.calls == s.calls[i := s.calls[i].(pc := AwaitListen(k))] && t.connects == s.connects;
    forall k', j | 0 <= k' < |s.conns| && 0 <= j < |s.conns[k'].queue|
      ensures Awaited(t, k', s.conns[k'].queue[j])
      ensures s.conns[k'].queue[j].Listen? ==> s.conns[k'].queue[j].from != Subscriber(i)
    {
      StillAwaited(s, t, k', s.conns[k'].queue[j], i);
    }
    EnqueueQueues(s, k, cmd, t);
  }

  lemma SendListenSound(s: State, i: CallId)
    requires Sound(s) && Enabled(s, SendListen(i))
    ensures Sound(AfterSendListen(s, i))
  {
    AccountsSendListen(s, i);
    match s.client
    case None =>
      SetPcRegistry(s, i, Subscribed);
      QueuesFrame(s, SetPc(s, i, Subscribed));
    case Some(k) =>
      var cmd := Listen(s.calls[i].channel, Subscriber(i));
      var s1 := Enqueue(s, k, cmd);
      var t := SetPc(s1, i, AwaitListen(k));
      EnqueueAccounts(s, k, cmd);
      SameCallsRegistry(s, s1);
      SetPcRegistry(s1, i, AwaitListen(k));
      SendListenQueues(s, i, k);
  }

  lemma CloseSound(s: State)
    requires Sound(s)
    ensures Sound(AfterClose(s))
  {
    AccountsClose(s);
    QueuesFrame(s, AfterClose(s));
  }

  lemma PoolOkSound(s: State, n: ConnectId, leftover: set<Channel>)
    requires Sound(s) && Enabled(s, PoolOk(n, leftover))
    ensures Sound(AfterPoolOk(s, n, leftover))
  {
    AccountsPoolOk(s, n, leftover);
    RegistryFrame(s, AfterPoolOk(s, n, leftover));
    QueuesFrame(s, AfterPoolOk(s, n, leftover));
  }

  lemma ConnectEndsSound(s: State, n: ConnectId, phase: Connect, pc: Pc)
    requires Sound(s) && n < |s.connects| && s.connects[n].Active()
    requires !phase.Active() && phase.Held() == s.connects[n].Held()
    requires pc.Live() && !pc.AwaitListen?
    requires s.connects[n].Looping? ==> s.connects[n].sent == None
    ensures Sound(AfterConnectEnds(s, n, phase, pc))
  {
    AccountsConnectEnds(s, n, phase, pc);
    RegistryFrame(s, AfterConnectEnds(s, n, phase, pc));
    QueuesFrame(s, AfterConnectEnds(s, n, phase, pc));
  }

  lemma SendRelistenSound(s: State, n: ConnectId)
    requires Sound(s) && Enabled(s, SendRelisten(n))
    ensures Sound(AfterSendRelisten(s, n))
  {
    var t := AfterSendRelisten(s, n);
    AccountsSendRelisten(s, n);
    RegistryFrame(s, t);
    var p := s.connects[n];
    forall k, j | 0 <= k < |s.conns| && 0 <= j < |s.conns[k].queue|
      ensures Awaited(t, k, s.conns[k].queue[j])
          && (s.conns[k].queue[j].Listen? ==> s.conns[k].queue[j].from != Loop(n))
    {
      assert Awaited(s, k, s.conns[k].queue[j]);
    }
    EnqueueQueues(s, p.conn, Listen(p.pending[0], Loop(n)), t);
  }

  /** The head of a queue leaves it, and whoever waited for it moves on. */
  lemma DequeueQueues(s: State, k: ConnId, listening: set<Channel>, t: State)
    requires Queues(s) && k < |s.conns| && s.conns[k].queue != []
    requires t.conns == Dequeue(s, k, listening).conns
    requires |t.calls| == |s.calls| && |t.connects| == |s.connects|
    requires forall i :: 0 <= i < |s.calls| ==>
               && t.calls[i].channel == s.calls[i].channel
               && (s.conns[k].queue[0] == Listen(s.calls[i].channel, Subscriber(i)) ==> !t.calls[i].pc.AwaitListen?)
               && (s.conns[k].queue[0] != Listen(s.calls[i].channel, Subscriber(i)) && s.calls[i].pc.AwaitListen? ==>
                     t.calls[i].pc == s.calls[i].pc)
               && (t.calls[i].pc.AwaitListen? ==> t.calls[i].pc == s.calls[i].pc)
    requires forall n :: 0 <= n < |s.connects| && s.connects[n].Looping? ==>
               (s.conns[k].queue[0].Listen? && s.conns[k].queue[0].from == Loop(n)) || t.connects[n] == s.connects[n]
    ensures Queues(t)
  {
    var q := s.conns[k].queue;
    assert Awaited(s, k, q[0]);
    forall k', j | 0 <= k' < |t.conns| && 0 <= j < |t.conns[k'].queue|
      ensures Awaited(t, k', t.conns[k'].queue[j])
    {
      var j' := if k' == k then j + 1 else j;
      assert Awaited(s, k', s.conns[k'].queue[j']);
    }
    forall i | 0 <= i < |t.calls| && t.calls[i].pc.AwaitListen?
      ensures t.calls[i].pc.conn < |t.conns|
              && Listen(t.calls[i].channel, Subscriber(i)) in t.conns[t.calls[i].pc.conn].queue
    {
      var cmd := Listen(s.calls[i].channel, Subscriber(i));
      assert cmd in s.conns[s.calls[i].pc.conn].queue;
      if s.calls[i].pc.conn == k {
        assert q == [q[0]] + q[1..];
        assert cmd in q[1..];
      }
    }
  }

  lemma AnsweredRegistry(s: State, k: ConnId, c: Channel)
    requires Typed(s) && Registry(s) && k < |s.conns| && s.conns[k].queue != []
    ensures Typed(Answered(s, k, c)) && Registry(Answered(s, k, c))
  {
    var t := Answered(s, k, c);
    assert forall n :: 0 <= n < |s.connects| && t.connects[n].Looping? ==> t.connects[n] == s.connects[n];
    SameCallsRegistry(s, t);
  }

  lemma LoopAnsweredRegistry(s: State, k: ConnId, c: Channel, n: ConnectId)
    requires Sound(s) && k < |s.conns| && s.conns[k].queue != [] && s.conns[k].queue[0] == Listen(c, Loop(n))
    requires Typed(AfterExecute(s, k))
    ensures Registry(AfterExecute(s, k))
  {
    SameCallsRegistry(s, AfterExecute(s, k));
  }

  lemma ExecuteKeepsRegistry(s: State, k: ConnId)
    requires Sound(s) && k < |s.conns| && s.conns[k].alive && s.conns[k].queue != [] && Typed(AfterExecute(s, k))
    ensures Registry(AfterExecute(s, k))
  {
    match s.conns[k].queue[0]
    case Unlisten(c) =>
      SameCallsRegistry(s, Dequeue(s, k, s.conns[k].listening - {c}));
    case Listen(c, Subscriber(i)) =>
      var s1 := Answered(s, k, c);
      AnsweredRegistry(s, k, c);
      if i < |s.calls| { SetPcRegistry(s1, i, Subscribed); }
    case Listen(c, Loop(n)) =>
      LoopAnsweredRegistry(s, k, c, n);
  }

  lemma AnsweredQueues(s: State, k: ConnId, c: Channel, i: CallId)
    requires Queues(s) && k < |s.conns| && s.conns[k].queue != [] && i < |s.calls|
    requires s.conns[k].queue[0] == Listen(c, Subscriber(i))
    ensures Queues(SetPc(Answered(s, k, c), i, Subscribed))
  {
    var u := Answered(s, k, c);
    assert u.calls == s.calls && u.conns == Dequeue(s, k, s.conns[k].listening + {c}).conns;
    DequeueQueues(s, k, s.conns[k].listening + {c}, SetPc(u, i, Subscribed));
  }

  lemma ExecuteKeepsQueues(s: State, k: ConnId)
    requires Sound(s) && k < |s.conns| && s.conns[k].alive && s.conns[k].queue != []
    ensures Queues(AfterExecute(s, k))
  {
    var t := AfterExecute(s, k);
    var head := s.conns[k].queue[0];
    assert Awaited(s, k, head);
    match head
    case Unlisten(c) => DequeueQueues(s, k, s.conns[k].listening - {c}, t);
    case Listen(c, Subscriber(i)) => AnsweredQueues(s, k, c, i);
    case Listen(c, Loop(n)) =>
      assert t.calls == s.calls && t.connects == s.connects[n := s.connects[n].(sent := None)];
      DequeueQueues(s, k, s.conns[k].listening + {c}, t);
  }

  lemma ExecuteSound(s: State, k: ConnId)
    requires Sound(s) && k < |s.conns| && s.conns[k].alive && s.conns[k].queue != []
    ensures Sound(AfterExecute(s, k))
  {
    var t := AfterExecute(s, k);
    assert Awaited(s, k, s.conns[k].queue[0]);
    AccountsExecute(s, k);
    assert Registry(t) by { ExecuteKeepsRegistry(s, k); }
    ExecuteKeepsQueues(s, k);
  }

  lemma ConnectEndsRegistry(s: State, n: ConnectId, phase: Connect)
    requires Typed(s) && Registry(s) && n < |s.connects| && Typed(AfterConnectEnds(s, n, phase, Throwing))
    ensures Registry(AfterConnectEnds(s, n, phase, Throwing))
  {
    RegistryFrame(s, AfterConnectEnds(s, n, phase, Throwing));
  }

  lemma FailKeepsRegistry(s: State, k: ConnId)
    requires Sound(s) && k < |s.conns| && s.conns[k].queue != [] && Typed(AfterFail(s, k))
    ensures Registry(AfterFail(s, k))
  {
    var s1 := Dequeue(s, k, s.conns[k].listening);
    SameCallsRegistry(s, s1);
    match s.conns[k].queue[0]
    case Unlisten(c) =>
    case Listen(c, Subscriber(i)) => if i < |s.calls| { SetPcRegistry(s1, i, Throwing); }
    case Listen(c, Loop(n)) =>
      assert Awaited(s, k, s.conns[k].queue[0]);
      ConnectEndsRegistry(s1, n, AfterFail(s, k).connects[n]);
  }

  lemma FailKeepsQueues(s: State, k: ConnId)
    requires Sound(s) && k < |s.conns| && s.conns[k].queue != []
    ensures Queues(AfterFail(s, k))
  {
    var t := AfterFail(s, k);
    var head := s.conns[k].queue[0];
    assert Awaited(s, k, head);
    match head
    case Unlisten(c) => DequeueQueues(s, k, s.conns[k].listening, t);
    case Listen(c, Subscriber(i)) =>
      assert t.calls == s.calls[i := s.calls[i].(pc := Throwing)] && t.connects == s.connects;
      DequeueQueues(s, k, s.conns[k].listening, t);
    case Listen(c, Loop(n)) =>
      assert t.calls == Resume(s.calls, n, Throwing);
      DequeueQueues(s, k, s.conns[k].listening, t);
  }

  lemma FailSound(s: State, k: ConnId)
    requires Sound(s) && k < |s.conns| && s.conns[k].queue != []
    ensures Sound(AfterFail(s, k))
  {
    var t := AfterFail(s, k);
    assert Awaited(s, k, s.conns[k].queue[0]);
    AccountsFail(s, k);
    assert Registry(t) by { FailKeepsRegistry(s, k); }
    FailKeepsQueues(s, k);
  }

  lemma DropSound(s: State, k: ConnId)
    requires Sound(s) && Enabled(s, Drop(k))
    ensures Sound(AfterDrop(s, k))
  {
    DropAccounts(s, k);
    RegistryFrame(s, AfterDrop(s, k));
    QueuesFrame(s, AfterDrop(s, k));
  }

  lemma ErrorEventQueues(s: State, k: ConnId)
    requires Sound(s) && Enabled(s, ErrorEvent(k)) && !s.closed
    ensures Queues(AfterErrorEvent(s, k))
  {
    var s1 := Released(if s.client == Some(k) then s.(client := None) else s, k);
    QueuesFrame(s, s1);
    QueuesFrame(s1, StartConnect(s1));
  }

  lemma ErrorEventSound(s: State, k: ConnId)
    requires Sound(s) && Enabled(s, ErrorEvent(k))
    ensures Sound(AfterErrorEvent(s, k))
  {
    AccountsErrorEvent(s, k);
    if !s.closed {
      var t := AfterErrorEvent(s, k);
      SameCallsRegistry(s, t);
      ErrorEventQueues(s, k);
    }
  }

  lemma StepKeepsSound(s: State, step: Step)
    requires Sound(s) && Enabled(s, step)
    ensures Sound(Next(s, step))
  {
    match step
    case Subscribe(c, h) => SubscribeSound(s, c, h);
    case SendListen(i) => SendListenSound(s, i);
    case Catch(i) => CatchSound(s, i);
    case Unsubscribe(i) => UnsubscribeSound(s, i);
    case Close => CloseSound(s);
    case PoolOk(n, leftover) => PoolOkSound(s, n, leftover);
    case PoolFail(n) => ConnectEndsSound(s, n, PoolFailed, Throwing);
    case SendRelisten(n) => SendRelistenSound(s, n);
    case FinishLoop(n) => ConnectEndsSound(s, n, Resolved(s.connects[n].conn), Ready);
    case Execute(k) => ExecuteSound(s, k);
    case Fail(k) => FailSound(s, k);
    case Drop(k) => DropSound(s, k);
    case ErrorEvent(k) => ErrorEventSound(s, k);
  }
}
