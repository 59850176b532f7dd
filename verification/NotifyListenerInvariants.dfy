/** What every step of the listener keeps, and so what holds in every reachable state. */
module NotifyListenerInvariants {
  import opened Base
  import opened NotifyListener

  // ---- connection conservation ----

  /**
   * Checkouts minus releases is one exactly while `client` is set; no checkout is
   * released twice; only the current client carries event handlers; at most one
   * connect() is in flight, and it is the one `connecting` names.
   */
  ghost predicate Conserved(s: State) {
    && |s.conns| - s.releases == (if s.client.Some? then 1 else 0)
    && (forall k :: 0 <= k < |s.conns| ==>
          && (s.conns[k].attached <==> s.client == Some(k))
          && s.conns[k].releases == if s.client == Some(k) then 0 else 1)
    && (forall n :: 0 <= n < |s.connects| ==> (s.connects[n].Active() <==> s.connecting == Some(n)))
  }

  /** Each connection belongs to the one connect() that obtained it. */
  ghost predicate Owned(s: State) {
    && (forall n :: 0 <= n < |s.connects| && s.connects[n].Held().Some? ==>
          var k := s.connects[n].Held().value; k < |s.conns| && s.conns[k].owner == n)
    && (forall k :: 0 <= k < |s.conns| ==>
          s.conns[k].owner < |s.connects| && s.connects[s.conns[k].owner].Held() == Some(k))
    && (forall n :: 0 <= n < |s.connects| && s.connects[n].Active() ==>
          s.client.None? || s.client == s.connects[n].Held())
  }

  ghost predicate Accounted(s: State) {
    Typed(s) && Conserved(s) && Owned(s)
  }

  /** Two states that agree on everything the accounting looks at. */
  ghost predicate SameAccounts(s: State, t: State) {
    && t.client == s.client && t.connecting == s.connecting && t.releases == s.releases
    && |t.conns| == |s.conns| && |t.connects| == |s.connects|
    && (forall k :: 0 <= k < |s.conns| ==>
          && t.conns[k].owner == s.conns[k].owner
          && t.conns[k].attached == s.conns[k].attached
          && t.conns[k].releases == s.conns[k].releases)
    && (forall n :: 0 <= n < |s.connects| ==>
          && t.connects[n].Held() == s.connects[n].Held()
          && t.connects[n].Active() == s.connects[n].Active())
  }

  ghost predicate TypedRegistry(s: State) {
    && (forall c :: c in s.handlers ==> s.handlers[c] < |s.sets|)
    && (forall i :: 0 <= i < |s.calls| ==> s.calls[i].setId < |s.sets|)
  }

  lemma SameAccountsKeep(s: State, t: State)
    requires Accounted(s) && SameAccounts(s, t) && TypedRegistry(t)
    ensures Accounted(t)
  {
    forall n | 0 <= n < |t.connects| && t.connects[n].Held().Some?
      ensures t.connects[n].Held().value < |t.conns| && t.conns[t.connects[n].Held().value].owner == n
    {
      assert s.connects[n].Held() == t.connects[n].Held();
    }
    forall n | 0 <= n < |t.connects| && t.connects[n].Looping?
      ensures t.connects[n].conn < |t.conns|
    {
      assert t.connects[n].Held() == Some(t.connects[n].conn);
    }
  }

  lemma SetPcAccounts(s: State, i: CallId, pc: Pc)
    requires Accounted(s) && i < |s.calls|
    ensures Accounted(SetPc(s, i, pc))
  {
    SameAccountsKeep(s, SetPc(s, i, pc));
  }

  lemma EnqueueAccounts(s: State, k: ConnId, cmd: Command)
    requires Accounted(s) && k < |s.conns|
    ensures Accounted(Enqueue(s, k, cmd))
  {
    SameAccountsKeep(s, Enqueue(s, k, cmd));
  }

  lemma DequeueAccounts(s: State, k: ConnId, listening: set<Channel>)
    requires Accounted(s) && k < |s.conns| && s.conns[k].queue != []
    ensures Accounted(Dequeue(s, k, listening))
  {
    SameAccountsKeep(s, Dequeue(s, k, listening));
  }

  lemma DeleteKeyAccounts(s: State, c: Channel)
    requires Accounted(s)
    ensures Accounted(DeleteKey(s, c))
  {
    SameAccountsKeep(s, DeleteKey(s, c));
  }

  lemma AfterRegisterAccounts(s: State, c: Channel, h: Handler)
    requires Typed(s)
    ensures var t := AfterRegister(s, c, h);
            && SameAccounts(s, t) && TypedRegistry(t) && c in t.handlers && t.calls == s.calls
            && t.closed == s.closed
  {
  }

  lemma StartConnectOwned(s: State, t: State)
    requires Owned(s) && s.client.None? && t.client.None?
    requires t.conns == s.conns && t.connects == s.connects + [AwaitPool]
    ensures Owned(t)
  {
    forall n | 0 <= n < |t.connects| && t.connects[n].Held().Some?
      ensures t.connects[n].Held().value < |t.conns| && t.conns[t.connects[n].Held().value].owner == n
    {
      assert n < |s.connects| && t.connects[n] == s.connects[n];
    }
    forall k | 0 <= k < |t.conns|
      ensures t.conns[k].owner < |t.connects| && t.connects[t.conns[k].owner].Held() == Some(k)
    {
      assert t.connects[s.conns[k].owner] == s.connects[s.conns[k].owner];
    }
  }

  lemma StartConnectAccounts(s: State)
    requires Accounted(s) && s.client.None?
    ensures Accounted(StartConnect(s)) && StartConnect(s).connecting.Some?
  {
    var t := StartConnect(s);
    if s.connecting.None? {
      var m := |s.connects|;
      assert t.connects[m] == AwaitPool;
      forall n | 0 <= n < m
        ensures t.connects[n] == s.connects[n]
      {
      }
      assert Conserved(t) by {
        forall n | 0 <= n < |t.connects|
          ensures t.connects[n].Active() <==> t.connecting == Some(n)
        {
          if n < m { assert s.connects[n].Active() <==> s.connecting == Some(n); }
        }
      }
      assert Owned(t) by { StartConnectOwned(s, t); }
    }
  }

  lemma AccountsSubscribe(s: State, c: Channel, h: Handler)
    requires Accounted(s)
    ensures Accounted(AfterSubscribe(s, c, h))
  {
    AfterRegisterAccounts(s, c, h);
    var s1 := AfterRegister(s, c, h);
    SameAccountsKeep(s, s1);
    if !(s1.closed || s1.client.Some?) {
      StartConnectAccounts(s1);
    }
    var s2 := if s1.closed || s1.client.Some? then s1 else StartConnect(s1);
    SameAccountsKeep(s2, AfterSubscribe(s, c, h));
  }

  lemma AccountsCatch(s: State, i: CallId)
    requires Accounted(s) && Enabled(s, Catch(i))
    ensures Accounted(AfterCatch(s, i))
  {
    var call := s.calls[i];
    var left := s.sets[call.setId].members - {call.handler};
    var s1 := s.(sets := s.sets[call.setId := s.sets[call.setId].(members := left)]);
    SameAccountsKeep(s, s1);
    if left == {} { DeleteKeyAccounts(s1, call.channel); }
    SetPcAccounts(if left == {} then DeleteKey(s1, call.channel) else s1, i, Failed);
  }

  lemma AccountsUnsubscribe(s: State, i: CallId)
    requires Accounted(s) && Enabled(s, Unsubscribe(i))
    ensures Accounted(AfterUnsubscribe(s, i))
  {
    var call := s.calls[i];
    if call.channel !in s.handlers {
      SetPcAccounts(s, i, Unsubscribed);
    } else {
      var a := s.handlers[call.channel];
      var left := s.sets[a].members - {call.handler};
      var s1 := s.(sets := s.sets[a := s.sets[a].(members := left)]);
      SameAccountsKeep(s, s1);
      if left != {} {
        SetPcAccounts(s1, i, Unsubscribed);
      } else {
        DeleteKeyAccounts(s1, call.channel);
        var s2 := DeleteKey(s1, call.channel);
        if s2.client.Some? {
          EnqueueAccounts(s2, s2.client.value, Unlisten(call.channel));
        }
        var s3 := if s2.client.Some? then Enqueue(s2, s2.client.value, Unlisten(call.channel)) else s2;
        SetPcAccounts(s3, i, Unsubscribed);
      }
    }
  }

  lemma AccountsSendListen(s: State, i: CallId)
    requires Accounted(s) && Enabled(s, SendListen(i))
    ensures Accounted(AfterSendListen(s, i))
  {
    SameAccountsKeep(s, AfterSendListen(s, i));
  }

  lemma ReleaseConserved(s: State, k: ConnId)
    requires Conserved(s) && k < |s.conns| && s.client == Some(k)
    ensures Conserved(Released(s.(client := None), k))
  {
    var t := Released(s.(client := None), k);
    assert t.connects == s.connects;
    forall j | 0 <= j < |t.conns|
      ensures !t.conns[j].attached && t.conns[j].releases == 1
    {
      if j != k { assert t.conns[j] == s.conns[j]; }
    }
  }

  lemma ReleaseOwned(s: State, k: ConnId)
    requires Owned(s) && k < |s.conns|
    ensures Owned(Released(s.(client := None), k))
  {
    var t := Released(s.(client := None), k);
    assert t.connects == s.connects && forall j :: 0 <= j < |s.conns| ==> t.conns[j].owner == s.conns[j].owner;
  }

  /** The current client is given back. */
  lemma ReleaseAccounts(s: State, k: ConnId)
    requires Accounted(s) && s.client == Some(k)
    ensures Accounted(Released(s.(client := None), k))
  {
    ReleaseConserved(s, k);
    ReleaseOwned(s, k);
  }

  lemma ClearPendingAccounts(s: State, t: State)
    requires Accounted(s) && t.client == s.client && t.connecting == s.connecting && t.releases == s.releases
    requires t.conns == s.conns && t.calls == s.calls && t.sets == s.sets && t.handlers == map[]
    requires |t.connects| == |s.connects|
    requires forall n :: 0 <= n < |s.connects| ==> t.connects[n] == ClearPending(s.connects[n])
    ensures Accounted(t)
  {
    forall n | 0 <= n < |s.connects|
      ensures t.connects[n].Held() == s.connects[n].Held() && t.connects[n].Active() == s.connects[n].Active()
    {
    }
    SameAccountsKeep(s, t);
  }

  lemma AccountsClose(s: State)
    requires Accounted(s)
    ensures Accounted(AfterClose(s))
  {
    var s1 := s.(closed := true, handlers := map[], keys := [],
                 connects := seq(|s.connects|, n requires 0 <= n < |s.connects| => ClearPending(s.connects[n])));
    ClearPendingAccounts(s, s1);
    if s.client.Some? {
      ReleaseAccounts(s1, s.client.value);
      assert AfterClose(s) == Released(s1.(client := None), s.client.value);
    } else {
      assert AfterClose(s) == s1;
    }
  }

  lemma PoolOkOwned(s: State, n: ConnectId, leftover: set<Channel>)
    requires Owned(s) && n < |s.connects| && s.connects[n] == AwaitPool
    requires forall m :: 0 <= m < |s.connects| && s.connects[m].Active() ==> m == n
    ensures Owned(AfterPoolOk(s, n, leftover))
  {
    var t := AfterPoolOk(s, n, leftover);
    forall k | 0 <= k < |t.conns|
      ensures t.conns[k].owner < |t.connects| && t.connects[t.conns[k].owner].Held() == Some(k)
    {
      if k < |s.conns| {
        assert t.conns[k] == s.conns[k] && s.connects[s.conns[k].owner].Held() == Some(k);
      }
    }
    forall m | 0 <= m < |t.connects| && t.connects[m].Held().Some?
      ensures t.connects[m].Held().value < |t.conns| && t.conns[t.connects[m].Held().value].owner == m
    {
      if m != n {
        assert t.connects[m] == s.connects[m];
      }
    }
    forall m | 0 <= m < |t.connects| && m != n
      ensures !t.connects[m].Active()
    {
    }
  }

  lemma PoolOkConserved(s: State, n: ConnectId, leftover: set<Channel>)
    requires Accounted(s) && Enabled(s, PoolOk(n, leftover))
    ensures Conserved(AfterPoolOk(s, n, leftover))
  {
    var t := AfterPoolOk(s, n, leftover);
    assert s.connects[n].Active() && s.client.None?;
    forall k | 0 <= k < |t.conns|
      ensures t.conns[k].attached <==> t.client == Some(k)
      ensures t.conns[k].releases == if t.client == Some(k) then 0 else 1
    {
      if k < |s.conns| { assert t.conns[k] == s.conns[k]; }
    }
    forall m | 0 <= m < |t.connects|
      ensures t.connects[m].Active() == s.connects[m].Active()
    {
    }
  }

  lemma AccountsPoolOk(s: State, n: ConnectId, leftover: set<Channel>)
    requires Accounted(s) && Enabled(s, PoolOk(n, leftover))
    ensures Accounted(AfterPoolOk(s, n, leftover))
  {
    var t := AfterPoolOk(s, n, leftover);
    assert s.connects[n].Active() && s.connecting == Some(n);
    assert Conserved(t) by { PoolOkConserved(s, n, leftover); }
    assert Owned(t) by { PoolOkOwned(s, n, leftover); }
    forall m | 0 <= m < |t.connects| && t.connects[m].Looping?
      ensures t.connects[m].conn < |t.conns|
    {
      assert t.connects[m].Held() == Some(t.connects[m].conn);
    }
  }

  lemma AccountsConnectEnds(s: State, n: ConnectId, phase: Connect, pc: Pc)
    requires Accounted(s) && n < |s.connects| && s.connects[n].Active()
    requires !phase.Active() && phase.Held() == s.connects[n].Held()
    ensures Accounted(AfterConnectEnds(s, n, phase, pc))
  {
    var t := AfterConnectEnds(s, n, phase, pc);
    forall m | 0 <= m < |t.connects|
      ensures t.connects[m].Held() == s.connects[m].Held() && !t.connects[m].Active()
    {
    }
  }

  lemma AccountsSendRelisten(s: State, n: ConnectId)
    requires Accounted(s) && Enabled(s, SendRelisten(n))
    ensures Accounted(AfterSendRelisten(s, n))
  {
    SameAccountsKeep(s, AfterSendRelisten(s, n));
  }

  lemma AnsweredAccounts(s: State, n: ConnectId)
    requires Accounted(s) && n < |s.connects| && s.connects[n].Looping?
    ensures Accounted(s.(connects := s.connects[n := s.connects[n].(sent := None)]))
  {
    SameAccountsKeep(s, s.(connects := s.connects[n := s.connects[n].(sent := None)]));
  }

  lemma ClearMissedAccounts(s: State, k: ConnId, c: Channel)
    requires Accounted(s) && k < |s.conns|
    ensures Accounted(ClearMissed(s, k, c))
  {
    var t := ClearMissed(s, k, c);
    forall n | 0 <= n < |s.connects|
      ensures t.connects[n].Held() == s.connects[n].Held() && t.connects[n].Active() == s.connects[n].Active()
    {
    }
    SameAccountsKeep(s, t);
  }

  lemma AnsweredCallAccounts(s: State, k: ConnId, c: Channel, i: CallId)
    requires Accounted(s) && k < |s.conns| && s.conns[k].queue != []
    ensures Accounted(Answered(s, k, c))
    ensures i < |s.calls| ==> Accounted(SetPc(Answered(s, k, c), i, Subscribed))
  {
    DequeueAccounts(s, k, s.conns[k].listening + {c});
    ClearMissedAccounts(Dequeue(s, k, s.conns[k].listening + {c}), k, c);
    if i < |s.calls| { SetPcAccounts(Answered(s, k, c), i, Subscribed); }
  }

  lemma AnsweredLoopAccounts(s: State, k: ConnId, c: Channel, n: ConnectId)
    requires Accounted(s) && k < |s.conns| && s.conns[k].queue != []
    ensures var t := Dequeue(s, k, s.conns[k].listening + {c});
            Accounted(t)
            && (n < |s.connects| && s.connects[n].Looping? ==>
                  Accounted(t.(connects := t.connects[n := t.connects[n].(sent := None)])))
  {
    DequeueAccounts(s, k, s.conns[k].listening + {c});
    if n < |s.connects| && s.connects[n].Looping? {
      AnsweredAccounts(Dequeue(s, k, s.conns[k].listening + {c}), n);
    }
  }

  lemma AccountsExecute(s: State, k: ConnId)
    requires Accounted(s) && k < |s.conns| && s.conns[k].alive && s.conns[k].queue != []
    ensures Accounted(AfterExecute(s, k))
  {
    match s.conns[k].queue[0] {
      case Unlisten(c) =>
        DequeueAccounts(s, k, s.conns[k].listening - {c});
      case Listen(c, Subscriber(i)) =>
        AnsweredCallAccounts(s, k, c, i);
      case Listen(c, Loop(n)) =>
        AnsweredLoopAccounts(s, k, c, n);
    }
  }

  lemma RefusedAccounts(s: State, n: ConnectId, missed: seq<Channel>)
    requires Accounted(s) && n < |s.connects| && s.connects[n].Looping?
    ensures Accounted(AfterConnectEnds(s, n, Threw(s.connects[n].conn, missed), Throwing))
  {
    AccountsConnectEnds(s, n, Threw(s.connects[n].conn, missed), Throwing);
  }

  lemma AccountsFail(s: State, k: ConnId)
    requires Accounted(s) && k < |s.conns| && s.conns[k].queue != []
    ensures Accounted(AfterFail(s, k))
  {
    var s1 := Dequeue(s, k, s.conns[k].listening);
    DequeueAccounts(s, k, s.conns[k].listening);
    match s.conns[k].queue[0] {
      case Unlisten(c) =>
        assert AfterFail(s, k) == s1;
      case Listen(c, Subscriber(i)) =>
        if i < |s.calls| {
          SetPcAccounts(s1, i, Throwing);
          assert AfterFail(s, k) == SetPc(s1, i, Throwing);
        } else {
          assert AfterFail(s, k) == s1;
        }
      case Listen(c, Loop(n)) =>
        if n < |s.connects| && s.connects[n].Looping? {
          var missed := LeftUnheard(s, k, n, c);
          RefusedAccounts(s1, n, missed);
          assert AfterFail(s, k) == AfterConnectEnds(s1, n, Threw(s1.connects[n].conn, missed), Throwing);
        } else {
          assert AfterFail(s, k) == s1;
        }
    }
  }

  lemma AccountsErrorEvent(s: State, k: ConnId)
    requires Accounted(s) && Enabled(s, ErrorEvent(k))
    ensures Accounted(AfterErrorEvent(s, k))
  {
    if !s.closed {
      assert s.client == Some(k);
      ReleaseAccounts(s, k);
      StartConnectAccounts(Released(s.(client := None), k));
    }
  }

  lemma DropAccounts(s: State, k: ConnId)
    requires Accounted(s) && Enabled(s, Drop(k))
    ensures Accounted(AfterDrop(s, k))
  {
    SameAccountsKeep(s, AfterDrop(s, k));
  }

  lemma StepKeepsAccounts(s: State, step: Step)
    requires Accounted(s) && Enabled(s, step)
    ensures Accounted(Next(s, step))
  {
    match step
    case Subscribe(c, h) => AccountsSubscribe(s, c, h);
    case SendListen(i) => AccountsSendListen(s, i);
    case Catch(i) => AccountsCatch(s, i);
    case Unsubscribe(i) => AccountsUnsubscribe(s, i);
    case Close => AccountsClose(s);
    case PoolOk(n, leftover) => AccountsPoolOk(s, n, leftover);
    case PoolFail(n) => AccountsConnectEnds(s, n, PoolFailed, Throwing);
    case SendRelisten(n) => AccountsSendRelisten(s, n);
    case FinishLoop(n) => AccountsConnectEnds(s, n, Resolved(s.connects[n].conn), Ready);
    case Execute(k) => AccountsExecute(s, k);
    case Fail(k) => AccountsFail(s, k);
    case Drop(k) => DropAccounts(s, k);
    case ErrorEvent(k) => AccountsErrorEvent(s, k);
  }
}
