/** What a refused re-LISTEN leaves behind: the channels it leaves unheard, until when, and for whom. */
module NotifyListenerRelisten {
  import opened Base
  import opened NotifyListener
  import opened NotifyListenerInvariants
  import opened NotifyListenerRegistry
  import opened NotifyListenerRefinement
  import opened NotifyListenerRuns
  import opened NotifyListenerTheorems

  // ---- the missed channels are unheard ----

  ghost predicate MissedAreUnheard(s: State) {
    forall n :: 0 <= n < |s.connects| && s.connects[n].Threw? ==>
      && s.connects[n].conn < |s.conns|
      && forall c :: c in s.connects[n].missed ==> c !in s.conns[s.connects[n].conn].listening
  }

  /** No loop newly threw, no list of missed channels grew, and no connection listens to more. */
  lemma LessMissed(s: State, t: State)
    requires MissedAreUnheard(s) && |t.conns| >= |s.conns|
    requires forall n :: 0 <= n < |t.connects| && t.connects[n].Threw? ==>
               && n < |s.connects| && s.connects[n].Threw? && t.connects[n].conn == s.connects[n].conn
               && forall c :: c in t.connects[n].missed ==> c in s.connects[n].missed
    requires forall k :: 0 <= k < |s.conns| ==> t.conns[k].listening <= s.conns[k].listening
    ensures MissedAreUnheard(t)
  {
  }

  /** An answered LISTEN takes its channel off the list of its connection. */
  lemma ExecuteUnheard(s: State, k: ConnId)
    requires Owned(s) && MissedAreUnheard(s) && k < |s.conns| && s.conns[k].queue != []
    requires Awaited(s, k, s.conns[k].queue[0])
    ensures MissedAreUnheard(AfterExecute(s, k))
  {
    var t := AfterExecute(s, k);
    forall n | 0 <= n < |t.connects| && t.connects[n].Threw?
      ensures t.connects[n].conn < |t.conns|
      ensures forall c :: c in t.connects[n].missed ==> c !in t.conns[t.connects[n].conn].listening
    {
      assert s.connects[n].Threw? && t.connects[n].conn == s.connects[n].conn;
      assert s.conns[s.connects[n].Held().value].owner == n;
    }
  }

  lemma FailUnheard(s: State, k: ConnId)
    requires Owned(s) && MissedAreUnheard(s) && k < |s.conns| && s.conns[k].queue != []
    requires Awaited(s, k, s.conns[k].queue[0])
    ensures MissedAreUnheard(AfterFail(s, k))
  {
    var t := AfterFail(s, k);
    forall n | 0 <= n < |t.connects| && t.connects[n].Threw?
      ensures t.connects[n].conn < |t.conns|
      ensures forall c :: c in t.connects[n].missed ==> c !in t.conns[t.connects[n].conn].listening
    {
      if s.connects[n].Threw? {
        assert t.connects[n] == s.connects[n];
      } else {
        FailRelistenShape(s, k, n);
      }
    }
  }

  lemma SubscribeUnheard(s: State, c: Channel, h: Handler)
    requires Typed(s) && MissedAreUnheard(s)
    ensures MissedAreUnheard(AfterSubscribe(s, c, h))
  {
    LessMissed(s, AfterSubscribe(s, c, h));
  }

  lemma CatchUnheard(s: State, i: CallId)
    requires MissedAreUnheard(s) && i < |s.calls| && s.calls[i].setId < |s.sets|
    ensures MissedAreUnheard(AfterCatch(s, i))
  {
    LessMissed(s, AfterCatch(s, i));
  }

  lemma UnsubscribeUnheard(s: State, i: CallId)
    requires Typed(s) && MissedAreUnheard(s) && i < |s.calls|
    ensures MissedAreUnheard(AfterUnsubscribe(s, i))
  {
    LessMissed(s, AfterUnsubscribe(s, i));
  }

  lemma CloseUnheard(s: State)
    requires Typed(s) && MissedAreUnheard(s)
    ensures MissedAreUnheard(AfterClose(s))
  {
    LessMissed(s, AfterClose(s));
  }

  lemma ConnectEndsUnheard(s: State, n: ConnectId, phase: Connect, pc: Pc)
    requires MissedAreUnheard(s) && n < |s.connects| && !phase.Threw?
    ensures MissedAreUnheard(AfterConnectEnds(s, n, phase, pc))
  {
    LessMissed(s, AfterConnectEnds(s, n, phase, pc));
  }

  lemma SendUnheard(s: State, step: Step)
    requires Typed(s) && MissedAreUnheard(s) && Enabled(s, step) && (step.SendListen? || step.SendRelisten?)
    ensures MissedAreUnheard(Next(s, step))
  {
    LessMissed(s, Next(s, step));
  }

  lemma ConnectionUnheard(s: State, step: Step)
    requires Typed(s) && MissedAreUnheard(s) && Enabled(s, step) && (step.PoolOk? || step.Drop? || step.ErrorEvent?)
    ensures MissedAreUnheard(Next(s, step))
  {
    LessMissed(s, Next(s, step));
  }

  lemma StepKeepsUnheard(s: State, step: Step)
    requires Sound(s) && MissedAreUnheard(s) && Enabled(s, step)
    ensures MissedAreUnheard(Next(s, step))
  {
    if step.Subscribe? {
      SubscribeUnheard(s, step.channel, step.handler);
    } else if step.Execute? {
      assert Awaited(s, step.conn, s.conns[step.conn].queue[0]);
      ExecuteUnheard(s, step.conn);
    } else if step.Fail? {
      assert Awaited(s, step.conn, s.conns[step.conn].queue[0]);
      FailUnheard(s, step.conn);
    } else if step.PoolFail? {
      ConnectEndsUnheard(s, step.connect, PoolFailed, Throwing);
    } else if step.FinishLoop? {
      ConnectEndsUnheard(s, step.connect, Resolved(s.connects[step.connect].conn), Ready);
    } else if step.Catch? {
      CatchUnheard(s, step.call);
    } else if step.Unsubscribe? {
      UnsubscribeUnheard(s, step.call);
    } else if step.Close? {
      CloseUnheard(s);
    } else if step.SendListen? || step.SendRelisten? {
      SendUnheard(s, step);
    } else {
      ConnectionUnheard(s, step);
    }
  }

  lemma {:induction false} RunKeepsUnheard(s: State, steps: seq<Step>)
    requires Good(s) && MissedAreUnheard(s) && ValidRun(s, steps)
    ensures Good(Run(s, steps)) && MissedAreUnheard(Run(s, steps))
    decreases steps
  {
    if steps != [] {
      StepKeepsRefines(s, steps[0]);
      StepKeepsUnheard(s, steps[0]);
      RunKeepsUnheard(Next(s, steps[0]), steps[1..]);
    }
  }

  // ---- what is heard once the loop is over ----

  lemma MissedIsUnheard(s: State, k: ConnId, c: Channel)
    requires Owned(s) && MissedAreUnheard(s) && k < |s.conns| && c in Unvisited(s, k)
    requires !s.connects[s.conns[k].owner].Looping?
    ensures c !in s.conns[k].listening
  {
    assert s.connects[s.conns[k].owner].Held() == Some(k);
  }

  lemma ReachableAreUnheard(s: State)
    requires Reachable(s)
    ensures Good(s) && MissedAreUnheard(s)
  {
    InitIsGood();
    assert MissedAreUnheard(Init());
    var steps :| ValidRun(Init(), steps) && Run(Init(), steps) == s;
    RunKeepsUnheard(Init(), steps);
  }

  /**
   * In every reachable state with a live client whose loop is over, an attended channel
   * is listened to if and only if the loop did not miss it, whatever else is in progress.
   */
  lemma AttendedIsHeardUnlessMissed(s: State, k: ConnId, c: Channel)
    requires Reachable(s) && s.client == Some(k) && k < |s.conns| && s.conns[k].alive
    requires s.conns[k].owner < |s.connects| && !s.connects[s.conns[k].owner].Looping? && Attended(s, c)
    ensures c in s.conns[k].listening <==> c !in Unvisited(s, k)
  {
    ReachableAreUnheard(s);
    if c in Unvisited(s, k) {
      MissedIsUnheard(s, k, c);
    } else {
      AttendedIsHeardUnlessOwed(s, k, c);
    }
  }

  // ---- how a missed channel comes back ----

  ghost predicate StillThrew(s: State, t: State, n: ConnectId) {
    && n < |s.connects| && s.connects[n].Threw?
    && n < |t.connects| && t.connects[n].Threw? && t.connects[n].conn == s.connects[n].conn
    && forall c :: c in t.connects[n].missed ==> c in s.connects[n].missed
  }

  lemma HeadShrinks(s: State, step: Step, n: ConnectId)
    requires Typed(s) && Enabled(s, step) && n < |s.connects| && s.connects[n].Threw?
    requires step.Execute? || step.Fail?
    requires Awaited(s, step.conn, s.conns[step.conn].queue[0])
    ensures StillThrew(s, Next(s, step), n)
  {
  }

  lemma SubscribeShrinks(s: State, c: Channel, h: Handler, n: ConnectId)
    requires Typed(s) && n < |s.connects| && s.connects[n].Threw?
    ensures StillThrew(s, AfterSubscribe(s, c, h), n)
  {
    var r, t := AfterRegister(s, c, h), AfterSubscribe(s, c, h);
    assert r.connects[n] == s.connects[n];
    assert t.connects[n] == r.connects[n];
  }

  lemma EndShrinks(s: State, step: Step, n: ConnectId)
    requires Typed(s) && Enabled(s, step) && n < |s.connects| && s.connects[n].Threw?
    requires step.Catch? || step.Unsubscribe? || step.Close?
    ensures StillThrew(s, Next(s, step), n)
  {
  }

  lemma OtherShrinks(s: State, step: Step, n: ConnectId)
    requires Typed(s) && Enabled(s, step) && n < |s.connects| && s.connects[n].Threw?
    requires !step.Subscribe? && !step.Execute? && !step.Fail? && !step.Catch? && !step.Unsubscribe? && !step.Close?
    ensures StillThrew(s, Next(s, step), n)
  {
  }

  /** A loop that threw stays so on its connection, and misses no channel it did not miss before. */
  lemma MissedShrinks(s: State, step: Step, n: ConnectId)
    requires Sound(s) && Enabled(s, step) && n < |s.connects| && s.connects[n].Threw?
    ensures StillThrew(s, Next(s, step), n)
  {
    if step.Execute? || step.Fail? {
      assert Awaited(s, step.conn, s.conns[step.conn].queue[0]);
      HeadShrinks(s, step, n);
    } else if step.Subscribe? {
      SubscribeShrinks(s, step.channel, step.handler, n);
    } else if step.Catch? || step.Unsubscribe? || step.Close? {
      EndShrinks(s, step, n);
    } else {
      OtherShrinks(s, step, n);
    }
  }

  lemma OwnedBy(s: State, n: ConnectId, k: ConnId)
    requires Good(s) && n < |s.connects| && s.connects[n].Held() == Some(k)
    ensures k < |s.conns| && s.conns[k].owner == n
  {
  }

  /** Connect n threw on connection k, and does not miss c. */
  predicate Unmissed(s: State, n: ConnectId, k: ConnId, c: Channel) {
    n < |s.connects| && s.connects[n].Threw? && s.connects[n].conn == k && c !in s.connects[n].missed
  }

  lemma {:induction false} StaysUnmissed(s: State, steps: seq<Step>, n: ConnectId, k: ConnId, c: Channel)
    requires Good(s) && Unmissed(s, n, k, c) && ValidRun(s, steps)
    ensures Good(Run(s, steps)) && Unmissed(Run(s, steps), n, k, c)
    decreases steps
  {
    if steps != [] {
      StepKeepsRefines(s, steps[0]);
      MissedShrinks(s, steps[0], n);
      StaysUnmissed(Next(s, steps[0]), steps[1..], n, k, c);
    }
  }

  lemma UnmissedIsHeard(s: State, n: ConnectId, k: ConnId, c: Channel)
    requires Good(s) && Unmissed(s, n, k, c) && s.client == Some(k) && s.conns[k].alive && Attended(s, c)
    ensures c in s.conns[k].listening
  {
    OwnedBy(s, n, k);
    AttendedIsHeardUnlessOwed(s, k, c);
  }

  /** An answered LISTEN takes its channel off the list of the loop that threw. */
  lemma AnswerClears(s: State, k: ConnId)
    requires Sound(s) && Enabled(s, Execute(k)) && s.conns[k].queue[0].Listen?
    requires s.conns[k].owner < |s.connects| && s.connects[s.conns[k].owner].Threw?
    ensures Unmissed(Next(s, Execute(k)), s.conns[k].owner, k, s.conns[k].queue[0].channel)
  {
    var n, c := s.conns[k].owner, s.conns[k].queue[0].channel;
    assert Awaited(s, k, s.conns[k].queue[0]);
    assert s.connects[n].Held() == Some(k);
    assert AfterExecute(s, k).connects == Answered(s, k, c).connects;
  }

  /**
   * The recovery the source relies on: once the LISTEN of a later subscribe for c is
   * answered on a connection whose loop threw, c is listened to in every later state
   * in which that connection is the live client and c is attended.
   */
  lemma AnsweredSubscribeRecovers(s: State, k: ConnId, c: Channel, later: seq<Step>)
    requires Reachable(s) && Enabled(s, Execute(k))
    requires s.conns[k].queue[0].Listen? && s.conns[k].queue[0].channel == c
    requires s.conns[k].owner < |s.connects| && s.connects[s.conns[k].owner].Threw?
    requires Typed(s) && ValidRun(Next(s, Execute(k)), later)
    ensures var t := Run(Next(s, Execute(k)), later);
            t.client == Some(k) && k < |t.conns| && t.conns[k].alive && Attended(t, c) ==> c in t.conns[k].listening
  {
    ReachableIsGood(s);
    AnswerClears(s, k);
    StepKeepsRefines(s, Execute(k));
    StaysUnmissed(Next(s, Execute(k)), later, s.conns[k].owner, k, c);
    var t := Run(Next(s, Execute(k)), later);
    if t.client == Some(k) && t.conns[k].alive && Attended(t, c) {
      UnmissedIsHeard(t, s.conns[k].owner, k, c);
    }
  }

  // ---- and how it does not ----

  /** The call has still to send its LISTEN. */
  predicate WillAsk(pc: Pc) { pc.AwaitConnect? || pc.Ready? }

  /** On connection k nobody has asked for c, and no call in progress will. */
  ghost predicate Unasked(s: State, k: ConnId, c: Channel) {
    && k < |s.conns| && s.conns[k].owner < |s.connects|
    && s.connects[s.conns[k].owner].Held() == Some(k) && !s.connects[s.conns[k].owner].Looping?
    && c !in s.conns[k].listening
    && (forall cmd :: cmd in s.conns[k].queue && cmd.Listen? ==> cmd.channel != c)
    && (forall i :: 0 <= i < |s.calls| && s.calls[i].channel == c ==> !WillAsk(s.calls[i].pc))
  }

  lemma UnaskedFrame(s: State, t: State, k: ConnId, c: Channel)
    requires Unasked(s, k, c)
    requires |t.conns| >= |s.conns| && t.conns[k].owner == s.conns[k].owner && c !in t.conns[k].listening
    requires forall cmd :: cmd in t.conns[k].queue && cmd.Listen? && cmd.channel == c ==> cmd in s.conns[k].queue
    requires |t.connects| >= |s.connects|
    requires t.connects[s.conns[k].owner].Held() == Some(k) && !t.connects[s.conns[k].owner].Looping?
    requires forall i :: 0 <= i < |t.calls| && t.calls[i].channel == c && WillAsk(t.calls[i].pc) ==>
               i < |s.calls| && s.calls[i].channel == c && WillAsk(s.calls[i].pc)
    ensures Unasked(t, k, c)
  {
  }

  lemma SubscribeUnasked(s: State, k: ConnId, c: Channel, c': Channel, h: Handler)
    requires Typed(s) && Unasked(s, k, c) && c' != c
    ensures Unasked(AfterSubscribe(s, c', h), k, c)
  {
    SubscribeShape(s, c', h);
    var t, r := AfterSubscribe(s, c', h), AfterRegister(s, c', h);
    var n := s.conns[k].owner;
    assert r.connects[n] == s.connects[n] && t.connects[n] == r.connects[n];
    assert forall i :: 0 <= i < |s.calls| ==> t.calls[i] == s.calls[i];
    UnaskedFrame(s, t, k, c);
  }

  lemma SendListenUnasked(s: State, i: CallId, k: ConnId, c: Channel)
    requires Typed(s) && Unasked(s, k, c) && Enabled(s, SendListen(i))
    ensures Unasked(AfterSendListen(s, i), k, c)
  {
    UnaskedFrame(s, AfterSendListen(s, i), k, c);
  }

  /** A running loop belongs to another connection. */
  lemma LoopElsewhere(s: State, n: ConnectId, k: ConnId, c: Channel)
    requires Owned(s) && Unasked(s, k, c) && n < |s.connects| && s.connects[n].Looping?
    ensures s.connects[n].conn < |s.conns| && s.connects[n].conn != k
  {
    assert s.connects[n].Held() == Some(s.connects[n].conn);
  }

  lemma SendRelistenUnasked(s: State, n: ConnectId, k: ConnId, c: Channel)
    requires Unasked(s, k, c) && n < |s.connects| && s.connects[n].Looping? && s.connects[n].pending != []
    requires s.connects[n].conn < |s.conns| && s.connects[n].conn != k
    ensures Unasked(AfterSendRelisten(s, n), k, c)
  {
    var t := AfterSendRelisten(s, n);
    assert n != s.conns[k].owner && t.conns[k] == s.conns[k];
    UnaskedFrame(s, t, k, c);
  }

  lemma ExecuteUnasked(s: State, j: ConnId, k: ConnId, c: Channel)
    requires Unasked(s, k, c) && j < |s.conns| && s.conns[j].queue != [] && Awaited(s, j, s.conns[j].queue[0])
    ensures Unasked(AfterExecute(s, j), k, c)
  {
    var t, q := AfterExecute(s, j), s.conns[j].queue;
    assert q[0] in q && t.conns[j].queue == q[1..];
    assert c !in t.conns[k].listening;
    UnaskedFrame(s, t, k, c);
  }

  lemma FailUnasked(s: State, j: ConnId, k: ConnId, c: Channel)
    requires Unasked(s, k, c) && j < |s.conns| && s.conns[j].queue != [] && Awaited(s, j, s.conns[j].queue[0])
    ensures Unasked(AfterFail(s, j), k, c)
  {
    var t, q := AfterFail(s, j), s.conns[j].queue;
    assert t.conns[j].queue == q[1..];
    UnaskedFrame(s, t, k, c);
  }

  lemma RemoveUnasked(s: State, a: SetId, c': Channel, h: Handler, k: ConnId, c: Channel)
    requires Unasked(s, k, c) && a < |s.sets|
    ensures Unasked(AfterRemove(s, a, c', h), k, c)
  {
    var t, n := AfterRemove(s, a, c', h), s.conns[k].owner;
    assert t.connects[n] == s.connects[n] || t.connects[n] == DropPending(s.connects[n], c');
    UnaskedFrame(s, t, k, c);
  }

  lemma EndUnasked(s: State, i: CallId, pc: Pc, k: ConnId, c: Channel)
    requires Unasked(s, k, c) && i < |s.calls| && !WillAsk(pc)
    ensures Unasked(SetPc(s, i, pc), k, c)
  {
    UnaskedFrame(s, SetPc(s, i, pc), k, c);
  }

  lemma UnlistenUnasked(s: State, j: ConnId, c': Channel, k: ConnId, c: Channel)
    requires Unasked(s, k, c) && j < |s.conns|
    ensures Unasked(Enqueue(s, j, Unlisten(c')), k, c)
  {
    UnaskedFrame(s, Enqueue(s, j, Unlisten(c')), k, c);
  }

  lemma CatchUnasked(s: State, i: CallId, k: ConnId, c: Channel)
    requires Unasked(s, k, c) && i < |s.calls| && s.calls[i].setId < |s.sets|
    ensures Unasked(AfterCatch(s, i), k, c)
  {
    var call := s.calls[i];
    CatchShape(s, i);
    RemoveUnasked(s, call.setId, call.channel, call.handler, k, c);
    EndUnasked(AfterRemove(s, call.setId, call.channel, call.handler), i, Failed, k, c);
  }

  lemma UnsubscribeUnasked(s: State, i: CallId, k: ConnId, c: Channel)
    requires Typed(s) && Unasked(s, k, c) && i < |s.calls|
    ensures Unasked(AfterUnsubscribe(s, i), k, c)
  {
    var call := s.calls[i];
    if call.channel !in s.handlers {
      EndUnasked(s, i, Unsubscribed, k, c);
    } else {
      var a := s.handlers[call.channel];
      var u := AfterRemove(s, a, call.channel, call.handler);
      UnsubscribeShape(s, i);
      RemoveUnasked(s, a, call.channel, call.handler, k, c);
      EndUnasked(u, i, Unsubscribed, k, c);
      if s.sets[a].members - {call.handler} == {} && s.client.Some? {
        UnlistenUnasked(SetPc(u, i, Unsubscribed), s.client.value, call.channel, k, c);
      }
    }
  }

  lemma CloseUnasked(s: State, k: ConnId, c: Channel)
    requires Typed(s) && Unasked(s, k, c)
    ensures Unasked(AfterClose(s), k, c)
  {
    var t, n := AfterClose(s), s.conns[k].owner;
    assert t.connects[n] == ClearPending(s.connects[n]) && t.conns[k].queue == s.conns[k].queue;
    UnaskedFrame(s, t, k, c);
  }

  lemma ConnectEndsUnasked(s: State, n: ConnectId, phase: Connect, pc: Pc, k: ConnId, c: Channel)
    requires Unasked(s, k, c) && n < |s.connects| && n != s.conns[k].owner
    ensures Unasked(AfterConnectEnds(s, n, phase, pc), k, c)
  {
    UnaskedFrame(s, AfterConnectEnds(s, n, phase, pc), k, c);
  }

  lemma PoolOkUnasked(s: State, n: ConnectId, leftover: set<Channel>, k: ConnId, c: Channel)
    requires Unasked(s, k, c) && n < |s.connects| && n != s.conns[k].owner
    ensures Unasked(AfterPoolOk(s, n, leftover), k, c)
  {
    var t := AfterPoolOk(s, n, leftover);
    assert t.conns[k] == s.conns[k] && t.connects[s.conns[k].owner] == s.connects[s.conns[k].owner];
    UnaskedFrame(s, t, k, c);
  }

  lemma DropUnasked(s: State, j: ConnId, k: ConnId, c: Channel)
    requires Unasked(s, k, c) && j < |s.conns|
    ensures Unasked(AfterDrop(s, j), k, c)
  {
    UnaskedFrame(s, AfterDrop(s, j), k, c);
  }

  lemma ErrorEventUnasked(s: State, j: ConnId, k: ConnId, c: Channel)
    requires Unasked(s, k, c) && j < |s.conns|
    ensures Unasked(AfterErrorEvent(s, j), k, c)
  {
    var t, n := AfterErrorEvent(s, j), s.conns[k].owner;
    assert t.connects[n] == s.connects[n];
    UnaskedFrame(s, t, k, c);
  }

  lemma StepUnasked(s: State, step: Step, k: ConnId, c: Channel)
    requires Sound(s) && Unasked(s, k, c) && Enabled(s, step) && !(step.Subscribe? && step.channel == c)
    ensures Unasked(Next(s, step), k, c)
  {
    match step
    case Subscribe(c', h) => SubscribeUnasked(s, k, c, c', h);
    case SendListen(i) => SendListenUnasked(s, i, k, c);
    case SendRelisten(n) =>
      LoopElsewhere(s, n, k, c);
      SendRelistenUnasked(s, n, k, c);
    case Execute(j) => assert Awaited(s, j, s.conns[j].queue[0]); ExecuteUnasked(s, j, k, c);
    case Fail(j) => assert Awaited(s, j, s.conns[j].queue[0]); FailUnasked(s, j, k, c);
    case Catch(i) => CatchUnasked(s, i, k, c);
    case Unsubscribe(i) => UnsubscribeUnasked(s, i, k, c);
    case Close => CloseUnasked(s, k, c);
    case PoolOk(n, leftover) => PoolOkUnasked(s, n, leftover, k, c);
    case PoolFail(n) => ConnectEndsUnasked(s, n, PoolFailed, Throwing, k, c);
    case FinishLoop(n) => ConnectEndsUnasked(s, n, Resolved(s.connects[n].conn), Ready, k, c);
    case Drop(j) => DropUnasked(s, j, k, c);
    case ErrorEvent(j) => ErrorEventUnasked(s, j, k, c);
  }

  lemma {:induction false} RunUnasked(s: State, steps: seq<Step>, k: ConnId, c: Channel)
    requires Good(s) && Unasked(s, k, c) && ValidRun(s, steps)
    requires forall step :: step in steps ==> !(step.Subscribe? && step.channel == c)
    ensures Unasked(Run(s, steps), k, c)
    decreases steps
  {
    if steps != [] {
      assert steps[0] in steps;
      StepKeepsRefines(s, steps[0]);
      StepUnasked(s, steps[0], k, c);
      RunUnasked(Next(s, steps[0]), steps[1..], k, c);
    }
  }

  /**
   * A channel that a connection does not listen to, and that neither a queued LISTEN
   * nor a call in progress will ask for, stays unheard there in every run that starts
   * no new subscribe for it: the listener repairs nothing itself.
   */
  lemma UnheardUntilSubscribedAgain(s: State, k: ConnId, c: Channel, later: seq<Step>)
    requires Reachable(s) && Unasked(s, k, c) && ValidRun(s, later)
    requires forall step :: step in later ==> !(step.Subscribe? && step.channel == c)
    ensures var t := Run(s, later); k < |t.conns| && c !in t.conns[k].listening
  {
    ReachableIsGood(s);
    RunUnasked(s, later, k, c);
  }

  lemma RefusedMisses(s: State, k: ConnId, n: ConnectId, c: Channel)
    requires k < |s.conns| && s.conns[k].queue != [] && Awaited(s, k, s.conns[k].queue[0]) && s.conns[k].owner == n
    requires s.conns[k].queue[0].Listen? && s.conns[k].queue[0].from == Loop(n)
    ensures var t := AfterFail(s, k);
            && k < |t.conns| && t.conns[k].owner == n < |t.connects|
            && (c in Unvisited(t, k) <==>
                  && c !in s.conns[k].listening
                  && (c in s.connects[n].pending || (c in s.handlers && c == s.conns[k].queue[0].channel)))
  {
    FailRelistenShape(s, k, n);
  }

  /** A refused re-LISTEN misses exactly the registered channels it had left, save those listened to already. */
  lemma RefusedRelistenMissesExactly(s: State, k: ConnId, n: ConnectId, c: Channel)
    requires Good(s) && k < |s.conns| && s.conns[k].queue != []
    requires s.conns[k].queue[0].Listen? && s.conns[k].queue[0].from == Loop(n)
    ensures var t := AfterFail(s, k);
            && n < |s.connects| && s.connects[n].Looping? && k < |t.conns| && t.conns[k].owner < |t.connects|
            && (c in Unvisited(t, k) <==>
                  && c !in s.conns[k].listening
                  && (c in s.connects[n].pending || (c in s.handlers && c == s.conns[k].queue[0].channel)))
  {
    assert Awaited(s, k, s.conns[k].queue[0]);
    assert s.connects[n].Held() == Some(k);
    OwnedBy(s, n, k);
    RefusedMisses(s, k, n, c);
  }

  // ---- a refused re-LISTEN ----

  const RUN_CHANNEL: Channel := "tanren_run"

  /** A listener with the one subscribe call 0 on RUN_CHANNEL. */
  function OneSubscriber(client: Option<ConnId>, connecting: Option<ConnectId>, conns: seq<Conn>,
                         connects: seq<Connect>, pc: Pc, releases: nat): State
  {
    State(client, map[RUN_CHANNEL := 0], [RUN_CHANNEL], connecting, false, [HandlerSet(RUN_CHANNEL, {7})],
          conns, connects, [Call(RUN_CHANNEL, 7, 0, pc)], releases)
  }

  lemma ReachedBy(s: State, step: Step, t: State)
    requires Reachable(s) && Typed(s) && Enabled(s, step) && Next(s, step) == t
    ensures Reachable(t) && Typed(t)
  {
    ReachableStep(s, step);
  }

  /** Sequences of one or two elements that the steps below build and take apart. */
  lemma SmallSequences<T>(x: T, y: T)
    ensures [x][1..] == [] && [] + [x] == [x] && [x][0 := y] == [y] && [x] + [y] == [x, y]
    ensures forall z :: [x, y][1 := z] == [x, z]
  {
  }

  lemma FirstSubscribe()
    ensures var s := OneSubscriber(None, Some(0), [], [AwaitPool], AwaitConnect(0), 0); Reachable(s) && Typed(s)
  {
    InitReachable();
    var c := RUN_CHANNEL;
    assert {} + {7} == {7};
    var r := AfterRegister(Init(), c, 7);
    assert r == State(None, map[c := 0], [c], None, false, [HandlerSet(c, {7})], [], [], [], 0);
    ReachedBy(Init(), Subscribe(c, 7), OneSubscriber(None, Some(0), [], [AwaitPool], AwaitConnect(0), 0));
  }

  lemma PoolGives(n: ConnectId, conns: seq<Conn>, connects: seq<Connect>, pc: Pc, releases: nat)
    requires n < |connects| && connects[n] == AwaitPool
    requires var s := OneSubscriber(None, Some(n), conns, connects, pc, releases); Reachable(s) && Typed(s)
    ensures var s := OneSubscriber(Some(|conns|), Some(n), conns + [Conn(n, [], {}, true, true, 0)],
                                   connects[n := Looping(|conns|, [RUN_CHANNEL], None)], pc, releases);
            Reachable(s) && Typed(s)
  {
    var s0 := OneSubscriber(None, Some(n), conns, connects, pc, releases);
    var s1 := OneSubscriber(Some(|conns|), Some(n), conns + [Conn(n, [], {}, true, true, 0)],
                            connects[n := Looping(|conns|, [RUN_CHANNEL], None)], pc, releases);
    assert Next(s0, PoolOk(n, {})) == s1;
    ReachedBy(s0, PoolOk(n, {}), s1);
  }

  /** connect() obtains connection k and re-LISTENs the one channel. */
  lemma PoolAnswers(n: ConnectId, conns: seq<Conn>, connects: seq<Connect>, pc: Pc, releases: nat)
    requires n < |connects| && connects[n] == AwaitPool
    requires var s := OneSubscriber(None, Some(n), conns, connects, pc, releases); Reachable(s) && Typed(s)
    ensures var k := |conns|;
            var s := OneSubscriber(Some(k), Some(n),
                conns + [Conn(n, [Listen(RUN_CHANNEL, Loop(n))], {}, true, true, 0)],
                                   connects[n := Looping(k, [], Some(RUN_CHANNEL))], pc, releases);
            Reachable(s) && Typed(s)
  {
    var c, k := RUN_CHANNEL, |conns|;
    PoolGives(n, conns, connects, pc, releases);
    var s1 := OneSubscriber(Some(k), Some(n), conns + [Conn(n, [], {}, true, true, 0)],
                            connects[n := Looping(k, [c], None)], pc, releases);
    var s2 := OneSubscriber(Some(k), Some(n), conns + [Conn(n, [Listen(c, Loop(n))], {}, true, true, 0)],
                            connects[n := Looping(k, [], Some(c))], pc, releases);
    SmallSequences(c, c);
    SmallSequences(Listen(c, Loop(n)), Listen(c, Loop(n)));
    assert s1.connects[n := Looping(k, [], Some(c))] == s2.connects;
    assert s1.conns[k := Conn(n, [Listen(c, Loop(n))], {}, true, true, 0)] == s2.conns;
    assert Next(s1, SendRelisten(n)) == s2;
    ReachedBy(s1, SendRelisten(n), s2);
  }

  lemma FirstRelisten()
    ensures var s := OneSubscriber(Some(0), Some(0), [Conn(0, [Listen(RUN_CHANNEL, Loop(0))], {}, true, true, 0)],
                                   [Looping(0, [], Some(RUN_CHANNEL))], AwaitConnect(0), 0);
            Reachable(s) && Typed(s)
  {
    var c := RUN_CHANNEL;
    FirstSubscribe();
    PoolAnswers(0, [], [AwaitPool], AwaitConnect(0), 0);
    var s3 := OneSubscriber(Some(0), Some(0), [Conn(0, [Listen(c, Loop(0))], {}, true, true, 0)],
                            [Looping(0, [], Some(c))], AwaitConnect(0), 0);
    assert [] + s3.conns == s3.conns && [AwaitPool][0 := Looping(0, [], Some(c))] == s3.connects;
  }

  lemma RelistenAnswered()
    ensures var s := OneSubscriber(Some(0), Some(0), [Conn(0, [], {RUN_CHANNEL}, true, true, 0)],
                                   [Looping(0, [], None)], AwaitConnect(0), 0);
            Reachable(s) && Typed(s)
  {
    var c := RUN_CHANNEL;
    SmallSequences(Listen(c, Loop(0)), Listen(c, Loop(0)));
    assert {} + {c} == {c};
    var s3 := OneSubscriber(Some(0), Some(0), [Conn(0, [Listen(c, Loop(0))], {}, true, true, 0)],
                            [Looping(0, [], Some(c))], AwaitConnect(0), 0);
    var s4 := OneSubscriber(Some(0), Some(0), [Conn(0, [], {c}, true, true, 0)], [Looping(0, [], None)],
        AwaitConnect(0), 0);
    assert Typed(s3) && Enabled(s3, Execute(0));
    assert Next(s3, Execute(0)) == s4;
    FirstRelisten();
    ReachedBy(s3, Execute(0), s4);
  }

  /** One subscriber on connection 0, which re-LISTENed its channel; its own LISTEN is not sent yet. */
  lemma ReadyOnce()
    ensures var s := OneSubscriber(Some(0), None, [Conn(0, [], {RUN_CHANNEL}, true, true, 0)], [Resolved(0)], Ready, 0);
            Reachable(s) && Typed(s)
  {
    var on := Conn(0, [], {RUN_CHANNEL}, true, true, 0);
    var s4 := OneSubscriber(Some(0), Some(0), [on], [Looping(0, [], None)], AwaitConnect(0), 0);
    var s5 := OneSubscriber(Some(0), None, [on], [Resolved(0)], Ready, 0);
    assert Typed(s4) && Enabled(s4, FinishLoop(0));
    assert Next(s4, FinishLoop(0)) == s5;
    RelistenAnswered();
    ReachedBy(s4, FinishLoop(0), s5);
  }

  /** One subscriber whose LISTEN was sent and answered on connection 0. */
  lemma SubscribedOnce()
    ensures var s := OneSubscriber(Some(0), None, [Conn(0, [], {RUN_CHANNEL}, true, true, 0)], [Resolved(0)],
        Subscribed, 0);
            Reachable(s) && Typed(s)
  {
    ReadyOnce();
    SubscriberAnswered(OneSubscriber(Some(0), None, [Conn(0, [], {RUN_CHANNEL}, true, true, 0)], [Resolved(0)],
        Ready, 0));
  }

  lemma SubscriberSends(s5: State)
    requires s5 == OneSubscriber(Some(0), None, [Conn(0, [], {RUN_CHANNEL}, true, true, 0)], [Resolved(0)], Ready, 0)
    requires Reachable(s5) && Typed(s5)
    ensures var s := OneSubscriber(Some(0), None,
        [Conn(0, [Listen(RUN_CHANNEL, Subscriber(0))], {RUN_CHANNEL}, true, true, 0)],
                                   [Resolved(0)], AwaitListen(0), 0);
            Reachable(s) && Typed(s)
  {
    var c := RUN_CHANNEL;
    SmallSequences(Listen(c, Subscriber(0)), Listen(c, Subscriber(0)));
    var s6 := OneSubscriber(Some(0), None, [Conn(0, [Listen(c, Subscriber(0))], {c}, true, true, 0)], [Resolved(0)],
        AwaitListen(0), 0);
    assert Next(s5, SendListen(0)) == s6;
    ReachedBy(s5, SendListen(0), s6);
  }

  lemma SubscriberAnswered(s5: State)
    requires s5 == OneSubscriber(Some(0), None, [Conn(0, [], {RUN_CHANNEL}, true, true, 0)], [Resolved(0)], Ready, 0)
    requires Reachable(s5) && Typed(s5)
    ensures var s := OneSubscriber(Some(0), None, [Conn(0, [], {RUN_CHANNEL}, true, true, 0)], [Resolved(0)],
        Subscribed, 0);
            Reachable(s) && Typed(s)
  {
    var c := RUN_CHANNEL;
    SmallSequences(Listen(c, Subscriber(0)), Listen(c, Subscriber(0)));
    assert {c} + {c} == {c};
    var s6 := OneSubscriber(Some(0), None, [Conn(0, [Listen(c, Subscriber(0))], {c}, true, true, 0)], [Resolved(0)],
        AwaitListen(0), 0);
    var s7 := OneSubscriber(Some(0), None, [Conn(0, [], {c}, true, true, 0)], [Resolved(0)], Subscribed, 0);
    assert Next(s6, Execute(0)) == s7;
    SubscriberSends(s5);
    ReachedBy(s6, Execute(0), s7);
  }

  const LOST: Conn := Conn(0, [], {}, false, false, 1)

  lemma ConnectionDrops()
    ensures var s := OneSubscriber(Some(0), None, [Conn(0, [], {}, false, true, 0)], [Resolved(0)], Subscribed, 0);
            Reachable(s) && Typed(s)
  {
    SubscribedOnce();
    var s7 := OneSubscriber(Some(0), None, [Conn(0, [], {RUN_CHANNEL}, true, true, 0)], [Resolved(0)], Subscribed, 0);
    var s8 := OneSubscriber(Some(0), None, [Conn(0, [], {}, false, true, 0)], [Resolved(0)], Subscribed, 0);
    assert Next(s7, Drop(0)) == s8;
    ReachedBy(s7, Drop(0), s8);
  }

  /** The same listener after its connection dropped, and reconnect() has asked the pool. */
  lemma ConnectionLost()
    ensures var s := OneSubscriber(None, Some(1), [LOST], [Resolved(0), AwaitPool], Subscribed, 1);
            Reachable(s) && Typed(s)
  {
    var s8 := OneSubscriber(Some(0), None, [Conn(0, [], {}, false, true, 0)], [Resolved(0)], Subscribed, 0);
    var s9 := OneSubscriber(None, Some(1), [LOST], [Resolved(0), AwaitPool], Subscribed, 1);
    assert Next(s8, ErrorEvent(0)) == s9;
    ConnectionDrops();
    ReachedBy(s8, ErrorEvent(0), s9);
  }

  const DEAF: State :=
    OneSubscriber(Some(1), None, [LOST, Conn(1, [], {}, true, true, 0)], [Resolved(0), Threw(1, [RUN_CHANNEL])],
        Subscribed, 1)

  lemma RelistenRefused(s: State)
    requires s == OneSubscriber(Some(1), Some(1), [LOST, Conn(1, [Listen(RUN_CHANNEL, Loop(1))], {}, true, true, 0)],
                                [Resolved(0), Looping(1, [], Some(RUN_CHANNEL))], Subscribed, 1)
    requires Reachable(s) && Typed(s)
    ensures Reachable(DEAF) && Typed(DEAF)
  {
    var c := RUN_CHANNEL;
    SmallSequences(Listen(c, Loop(1)), Listen(c, Loop(1)));
    assert [c] + [] == [c] && Unheard([c], {}) == [c];
    assert LeftUnheard(s, 1, 1, c) == [c];
    assert Next(s, Fail(1)) == DEAF;
    ReachedBy(s, Fail(1), DEAF);
  }

  lemma DeafIsReachable()
    ensures Reachable(DEAF)
  {
    var c := RUN_CHANNEL;
    ConnectionLost();
    PoolAnswers(1, [LOST], [Resolved(0), AwaitPool], Subscribed, 1);
    var s11 := OneSubscriber(Some(1), Some(1), [LOST, Conn(1, [Listen(c, Loop(1))], {}, true, true, 0)],
                             [Resolved(0), Looping(1, [], Some(c))], Subscribed, 1);
    assert [LOST] + [s11.conns[1]] == s11.conns && [Resolved(0), AwaitPool][1 := s11.connects[1]] == s11.connects;
    RelistenRefused(s11);
  }

  /**
   * Why the loop must not have thrown: after one refused re-LISTEN the connection is
   * live and current and nothing is in flight, yet the subscribed channel is not
   * listened to, and no step of the listener itself will ever change that.
   */
  lemma RefusedRelistenLeavesChannelDeaf()
    ensures Reachable(DEAF)
    ensures DEAF.client == Some(1) && DEAF.conns[1].alive && DEAF.conns[1].queue == []
    ensures DEAF.calls == [Call(RUN_CHANNEL, 7, 0, Subscribed)] && RUN_CHANNEL in DEAF.handlers
    ensures RUN_CHANNEL !in DEAF.conns[1].listening
    ensures forall step :: Enabled(DEAF, step) ==> step.Subscribe? || step.Unsubscribe? || step.Close? || step.Drop?
  {
    DeafIsReachable();
  }
}
