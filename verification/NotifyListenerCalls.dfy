/** The life of one subscribe call: when it waits, when it succeeds, when it is rejected; and what undoes it. */
module NotifyListenerCalls {
  import opened Base
  import opened NotifyListener
  import opened NotifyListenerInvariants
  import opened NotifyListenerRegistry
  import opened NotifyListenerRefinement
  import opened NotifyListenerRuns

  // ---- nobody waits for nothing ----

  /** A call waits for a connect() only while that is in flight; the LISTEN a loop waits for is queued. */
  ghost predicate Waits(s: State) {
    && (forall i :: 0 <= i < |s.calls| && s.calls[i].pc.AwaitConnect? ==>
          s.calls[i].pc.connect < |s.connects| && s.connects[s.calls[i].pc.connect].Active())
    && (forall n :: 0 <= n < |s.connects| && s.connects[n].Looping? && s.connects[n].sent.Some? ==>
          && s.connects[n].conn < |s.conns|
          && Listen(s.connects[n].sent.value, Loop(n)) in s.conns[s.connects[n].conn].queue)
  }

  /** Connects stay in flight, loops wait for the same LISTEN, queues only grow, and no call starts to wait. */
  lemma WaitsFrame(s: State, t: State)
    requires Waits(s) && |s.connects| <= |t.connects| && |s.conns| <= |t.conns|
    requires forall i :: 0 <= i < |t.calls| && t.calls[i].pc.AwaitConnect? ==>
        i < |s.calls| && t.calls[i].pc == s.calls[i].pc
    requires forall n :: 0 <= n < |s.connects| && s.connects[n].Active() ==> t.connects[n].Active()
    requires forall n :: 0 <= n < |t.connects| && t.connects[n].Looping? && t.connects[n].sent.Some? ==>
        n < |s.connects| && s.connects[n].Looping? && s.connects[n].conn == t.connects[n].conn
        && s.connects[n].sent == t.connects[n].sent
    requires forall k, cmd :: 0 <= k < |s.conns| && cmd in s.conns[k].queue ==> cmd in t.conns[k].queue
    ensures Waits(t)
  {
  }

  lemma RegisterWaits(s: State, c: Channel, h: Handler)
    requires Typed(s) && Waits(s)
    ensures Waits(AfterRegister(s, c, h)) && AfterRegister(s, c, h).calls == s.calls
  {
    WaitsFrame(s, AfterRegister(s, c, h));
  }

  lemma SubscribeWaits(s: State, c: Channel, h: Handler)
    requires Good(s) && Waits(s)
    ensures Waits(AfterSubscribe(s, c, h))
  {
    RegisterWaits(s, c, h);
    AfterRegisterAccounts(s, c, h);
    var s1 := AfterRegister(s, c, h);
    SameAccountsKeep(s, s1);
    if !(s1.closed || s1.client.Some?) {
      StartConnectAccounts(s1);
      WaitsFrame(s1, StartConnect(s1));
      assert StartConnect(s1).connects[StartConnect(s1).connecting.value].Active();
    } else {
      WaitsFrame(s1, AfterSubscribe(s, c, h));
    }
  }

  lemma CatchWaits(s: State, i: CallId)
    requires Typed(s) && Waits(s) && Enabled(s, Catch(i))
    ensures Waits(AfterCatch(s, i))
  {
    WaitsFrame(s, AfterCatch(s, i));
  }

  lemma UnsubscribeWaits(s: State, i: CallId)
    requires Typed(s) && Waits(s) && Enabled(s, Unsubscribe(i))
    ensures Waits(AfterUnsubscribe(s, i))
  {
    WaitsFrame(s, AfterUnsubscribe(s, i));
  }

  lemma CloseWaits(s: State)
    requires Typed(s) && Waits(s)
    ensures Waits(AfterClose(s))
  {
    WaitsFrame(s, AfterClose(s));
  }

  lemma SendRelistenWaits(s: State, n: ConnectId)
    requires Typed(s) && Waits(s) && Enabled(s, SendRelisten(n))
    ensures Waits(AfterSendRelisten(s, n))
  {
    var t := AfterSendRelisten(s, n);
    var k := s.connects[n].conn;
    forall m | 0 <= m < |t.connects| && t.connects[m].Looping? && t.connects[m].sent.Some?
      ensures t.connects[m].conn < |t.conns|
      ensures Listen(t.connects[m].sent.value, Loop(m)) in t.conns[t.connects[m].conn].queue
    {
      if m != n {
        assert t.connects[m] == s.connects[m];
      }
    }
  }

  lemma ConnectEndsWaits(s: State, n: ConnectId, phase: Connect, pc: Pc)
    requires Typed(s) && Waits(s) && n < |s.connects| && !phase.Active() && !pc.AwaitConnect?
    ensures Waits(AfterConnectEnds(s, n, phase, pc))
  {
    var t := AfterConnectEnds(s, n, phase, pc);
    forall i | 0 <= i < |t.calls| && t.calls[i].pc.AwaitConnect?
      ensures t.calls[i].pc.connect < |t.connects| && t.connects[t.calls[i].pc.connect].Active()
    {
      assert t.calls[i] == s.calls[i] && s.calls[i].pc != AwaitConnect(n);
    }
  }

  /** The head of a queue goes; it was nobody's but its sender's. */
  lemma HeadWaits(s: State, k: ConnId, t: State)
    requires Waits(s) && k < |s.conns| == |t.conns| && s.conns[k].queue != []
    requires t.conns[k].queue == s.conns[k].queue[1..]
    requires forall j :: 0 <= j < |s.conns| && j != k ==> t.conns[j].queue == s.conns[j].queue
    requires |t.connects| == |s.connects|
    requires forall n :: 0 <= n < |s.connects| && s.connects[n].Active() ==> t.connects[n].Active()
    requires forall n :: 0 <= n < |t.connects| && t.connects[n].Looping? && t.connects[n].sent.Some? ==>
        && s.connects[n].Looping? && s.connects[n].conn == t.connects[n].conn
        && s.connects[n].sent == t.connects[n].sent
        && s.conns[k].queue[0] != Listen(s.connects[n].sent.value, Loop(n))
    requires forall i :: 0 <= i < |t.calls| && t.calls[i].pc.AwaitConnect? ==>
        i < |s.calls| && t.calls[i].pc == s.calls[i].pc
    ensures Waits(t)
  {
    var q := s.conns[k].queue;
    assert q == [q[0]] + q[1..];
  }

  lemma AnsweredLoopWaits(s: State, k: ConnId, n: ConnectId)
    requires Good(s) && Waits(s) && Enabled(s, Execute(k))
    requires s.conns[k].queue[0].Listen? && s.conns[k].queue[0].from == Loop(n)
    ensures Waits(AfterExecute(s, k))
  {
    assert Awaited(s, k, s.conns[k].queue[0]);
    assert AfterExecute(s, k).calls == s.calls;
    HeadWaits(s, k, AfterExecute(s, k));
  }

  /** Of the connects, an answered LISTEN of a call changes at most what one that threw has missed. */
  lemma AnsweredKeepsConnects(s: State, k: ConnId, c: Channel, n: ConnectId)
    requires k < |s.conns| && s.conns[k].queue != [] && n < |s.connects|
    ensures var t := Answered(s, k, c);
            && |t.connects| == |s.connects| && t.connects[n].Active() == s.connects[n].Active()
            && (s.connects[n].Active() || t.connects[n].Active() ==> t.connects[n] == s.connects[n])
  {
  }

  lemma AnsweredCallWaits(s: State, k: ConnId, i: CallId)
    requires Waits(s) && Enabled(s, Execute(k)) && Awaited(s, k, s.conns[k].queue[0])
    requires s.conns[k].queue[0].Listen? && s.conns[k].queue[0].from == Subscriber(i)
    ensures Waits(AfterExecute(s, k))
  {
    var t := AfterExecute(s, k);
    forall n | 0 <= n < |s.connects|
      ensures t.connects[n].Active() == s.connects[n].Active()
      ensures s.connects[n].Active() || t.connects[n].Active() ==> t.connects[n] == s.connects[n]
    {
      AnsweredKeepsConnects(s, k, s.conns[k].queue[0].channel, n);
    }
    HeadWaits(s, k, t);
  }

  lemma ExecuteWaits(s: State, k: ConnId)
    requires Good(s) && Waits(s) && Enabled(s, Execute(k))
    ensures Waits(AfterExecute(s, k))
  {
    assert Awaited(s, k, s.conns[k].queue[0]);
    match s.conns[k].queue[0]
    case Listen(_, Loop(n)) => AnsweredLoopWaits(s, k, n);
    case Listen(_, Subscriber(i)) => AnsweredCallWaits(s, k, i);
    case Unlisten(_) => HeadWaits(s, k, AfterExecute(s, k));
  }

  lemma FailWaits(s: State, k: ConnId)
    requires Good(s) && Waits(s) && Enabled(s, Fail(k))
    ensures Waits(AfterFail(s, k))
  {
    var head := s.conns[k].queue[0];
    assert Awaited(s, k, head);
    if head.Listen? && head.from.Loop? {
      RefusedLoopWaits(s, k, head.from.connect);
    } else {
      HeadWaits(s, k, AfterFail(s, k));
    }
  }

  /** The loop's LISTEN goes, the loop is over, and the calls that waited for it resume. */
  lemma LoopOverWaits(s: State, k: ConnId, n: ConnectId, phase: Connect, t: State)
    requires Waits(s) && k < |s.conns| == |t.conns| && n < |s.connects| && s.conns[k].queue != []
    requires s.conns[k].queue[0].Listen? && s.conns[k].queue[0].from == Loop(n) && !phase.Active()
    requires t.conns[k].queue == s.conns[k].queue[1..]
    requires forall j :: 0 <= j < |s.conns| && j != k ==> t.conns[j].queue == s.conns[j].queue
    requires t.connects == s.connects[n := phase] && t.calls == Resume(s.calls, n, Throwing)
    ensures Waits(t)
  {
    var q := s.conns[k].queue;
    assert q == [q[0]] + q[1..];
  }

  lemma RefusedLoopWaits(s: State, k: ConnId, n: ConnectId)
    requires Sound(s) && Waits(s) && Enabled(s, Fail(k))
    requires s.conns[k].queue[0].Listen? && s.conns[k].queue[0].from == Loop(n)
    ensures Waits(AfterFail(s, k))
  {
    assert Awaited(s, k, s.conns[k].queue[0]);
    LoopOverWaits(s, k, n, AfterFail(s, k).connects[n], AfterFail(s, k));
  }

  lemma ErrorEventWaits(s: State, k: ConnId)
    requires Typed(s) && Waits(s) && Enabled(s, ErrorEvent(k))
    ensures Waits(AfterErrorEvent(s, k))
  {
    WaitsFrame(s, AfterErrorEvent(s, k));
  }

  lemma SimpleStepWaits(s: State, step: Step)
    requires Typed(s) && Waits(s) && Enabled(s, step) && (step.SendListen? || step.PoolOk? || step.Drop?)
    ensures Waits(Next(s, step))
  {
    WaitsFrame(s, Next(s, step));
  }

  lemma StepKeepsWaits(s: State, step: Step)
    requires Good(s) && Waits(s) && Enabled(s, step)
    ensures Waits(Next(s, step))
  {
    match step
    case Subscribe(c, h) => SubscribeWaits(s, c, h);
    case Catch(i) => CatchWaits(s, i);
    case Unsubscribe(i) => UnsubscribeWaits(s, i);
    case Close => CloseWaits(s);
    case SendRelisten(n) => SendRelistenWaits(s, n);
    case PoolFail(n) => ConnectEndsWaits(s, n, PoolFailed, Throwing);
    case FinishLoop(n) => ConnectEndsWaits(s, n, Resolved(s.connects[n].conn), Ready);
    case Execute(k) => ExecuteWaits(s, k);
    case Fail(k) => FailWaits(s, k);
    case ErrorEvent(k) => ErrorEventWaits(s, k);
    case SendListen(_) => SimpleStepWaits(s, step);
    case PoolOk(_, _) => SimpleStepWaits(s, step);
    case Drop(_) => SimpleStepWaits(s, step);
  }

  lemma {:induction false} RunKeepsWaits(s: State, steps: seq<Step>)
    requires Good(s) && Waits(s) && ValidRun(s, steps)
    ensures Good(Run(s, steps)) && Waits(Run(s, steps))
    decreases steps
  {
    if steps != [] {
      StepKeepsRefines(s, steps[0]);
      StepKeepsWaits(s, steps[0]);
      RunKeepsWaits(Next(s, steps[0]), steps[1..]);
    }
  }

  /** A step that moves the call on, or the one connect() that it waits for. */
  ghost predicate MovesOn(s: State, i: CallId, step: Step)
    requires i < |s.calls|
  {
    match s.calls[i].pc
    case AwaitConnect(n) =>
      || step == PoolOk(n, {}) || step == SendRelisten(n) || step == FinishLoop(n)
      || (n < |s.connects| && s.connects[n].Looping? && step == Fail(s.connects[n].conn))
    case Ready => step == SendListen(i)
    case AwaitListen(k) => step == Fail(k)
    case Throwing => step == Catch(i)
    case Subscribed => step == Unsubscribe(i)
    case _ => false
  }

  /** In every reachable state each unfinished subscribe call has a step that moves it on. */
  lemma NoCallIsStuck(steps: seq<Step>, i: CallId)
    requires ValidRun(Init(), steps)
    requires i < |Run(Init(), steps).calls| && Run(Init(), steps).calls[i].pc.Live()
    ensures var s := Run(Init(), steps); exists step :: Enabled(s, step) && MovesOn(s, i, step)
  {
    InitIsGood();
    RunKeepsWaits(Init(), steps);
    var s := Run(Init(), steps);
    match s.calls[i].pc
    case AwaitConnect(n) =>
      var p := s.connects[n];
      var step := if p.AwaitPool? then PoolOk(n, {}) else if p.sent.Some? then Fail(p.conn)
                  else if p.pending != [] then SendRelisten(n) else FinishLoop(n);
      assert Enabled(s, step) && MovesOn(s, i, step);
    case Ready => assert Enabled(s, SendListen(i)) && MovesOn(s, i, SendListen(i));
    case AwaitListen(k) => assert Enabled(s, Fail(k)) && MovesOn(s, i, Fail(k));
    case Throwing => assert Enabled(s, Catch(i)) && MovesOn(s, i, Catch(i));
    case Subscribed => assert Enabled(s, Unsubscribe(i)) && MovesOn(s, i, Unsubscribe(i));
    case _ =>
  }

  // ---- success and rejection ----

  predicate Rejected(s: State, i: CallId) {
    i < |s.calls| && (s.calls[i].pc.Throwing? || s.calls[i].pc.Failed?)
  }

  predicate Succeeded(s: State, i: CallId) {
    i < |s.calls| && (s.calls[i].pc.Subscribed? || s.calls[i].pc.Unsubscribed?)
  }

  /** The step refuses the call's own LISTEN, or ends with an error the connect() that it waits for. */
  predicate Rejects(s: State, step: Step, i: CallId) {
    match step
    case PoolFail(n) => i < |s.calls| && s.calls[i].pc == AwaitConnect(n)
    case Fail(k) =>
      && k < |s.conns| && s.conns[k].queue != [] && s.conns[k].queue[0].Listen?
      && (|| s.conns[k].queue[0].from == Subscriber(i)
          || (s.conns[k].queue[0].from.Loop? && i < |s.calls|
              && s.calls[i].pc == AwaitConnect(s.conns[k].queue[0].from.connect)))
    case _ => false
  }

  /** The step answers the call's LISTEN, or would send it while there is no client. */
  predicate Accepts(s: State, step: Step, i: CallId) {
    match step
    case SendListen(j) => j == i && s.client.None?
    case Execute(k) =>
      && k < |s.conns| && s.conns[k].queue != [] && s.conns[k].queue[0].Listen?
      && s.conns[k].queue[0].from == Subscriber(i)
    case _ => false
  }

  ghost predicate Decided(s: State, step: Step, t: State, i: CallId) {
    && (Rejected(t, i) <==> Rejected(s, i) || Rejects(s, step, i))
    && (Succeeded(t, i) <==> Succeeded(s, i) || Accepts(s, step, i))
  }

  lemma SubscribeDecides(s: State, c: Channel, h: Handler, i: CallId)
    requires Typed(s)
    ensures Decided(s, Subscribe(c, h), AfterSubscribe(s, c, h), i)
  {
    var t := AfterSubscribe(s, c, h);
    assert |t.calls| == |s.calls| + 1 && forall j :: 0 <= j < |s.calls| ==> t.calls[j] == s.calls[j];
  }

  lemma ConnectEndDecides(s: State, n: ConnectId, phase: Connect, i: CallId)
    requires n < |s.connects|
    ensures Decided(s, PoolFail(n), AfterConnectEnds(s, n, phase, Throwing), i)
  {
  }

  lemma LoopEndDecides(s: State, n: ConnectId, phase: Connect, i: CallId)
    requires n < |s.connects|
    ensures Decided(s, FinishLoop(n), AfterConnectEnds(s, n, phase, Ready), i)
  {
  }

  /** Only the sender of the head of a queue is decided. */
  lemma HeadDecides(s: State, step: Step, t: State, i: CallId, j: CallId, pc: Pc)
    requires i < |s.calls| && s.calls[i].pc.AwaitListen? && t.calls == s.calls[i := s.calls[i].(pc := pc)]
    requires Rejects(s, step, j) <==> j == i && pc.Throwing?
    requires Accepts(s, step, j) <==> j == i && pc.Subscribed?
    requires pc.Throwing? || pc.Subscribed?
    ensures Decided(s, step, t, j)
  {
  }

  lemma NothingDecided(s: State, step: Step, t: State, i: CallId)
    requires t.calls == s.calls && !Rejects(s, step, i) && !Accepts(s, step, i)
    ensures Decided(s, step, t, i)
  {
  }

  lemma ExecuteDecides(s: State, k: ConnId, i: CallId)
    requires Good(s) && Enabled(s, Execute(k))
    ensures Decided(s, Execute(k), AfterExecute(s, k), i)
  {
    var head, t := s.conns[k].queue[0], AfterExecute(s, k);
    assert Awaited(s, k, head);
    if head.Listen? && head.from.Subscriber? {
      HeadDecides(s, Execute(k), t, head.from.call, i, Subscribed);
    } else {
      NothingDecided(s, Execute(k), t, i);
    }
  }

  lemma FailDecides(s: State, k: ConnId, i: CallId)
    requires Good(s) && Enabled(s, Fail(k))
    ensures Decided(s, Fail(k), AfterFail(s, k), i)
  {
    var head, t := s.conns[k].queue[0], AfterFail(s, k);
    assert Awaited(s, k, head);
    if head.Unlisten? {
      NothingDecided(s, Fail(k), t, i);
    } else if head.from.Subscriber? {
      HeadDecides(s, Fail(k), t, head.from.call, i, Throwing);
    } else {
      assert t.calls == Resume(s.calls, head.from.connect, Throwing);
    }
  }

  lemma UnsubscribeDecides(s: State, i: CallId, j: CallId)
    requires Typed(s) && Enabled(s, Unsubscribe(i))
    ensures Decided(s, Unsubscribe(i), AfterUnsubscribe(s, i), j)
  {
  }

  lemma CallsUntouched(s: State, step: Step)
    requires Typed(s) && Enabled(s, step)
    requires step.Close? || step.PoolOk? || step.SendRelisten? || step.Drop? || step.ErrorEvent?
    ensures Next(s, step).calls == s.calls
  {
  }

  lemma CallStepDecides(s: State, step: Step, i: CallId)
    requires Typed(s) && Enabled(s, step) && (step.SendListen? || step.Catch?)
    ensures Decided(s, step, Next(s, step), i)
  {
  }

  lemma StepDecides(s: State, step: Step, i: CallId)
    requires Good(s) && Enabled(s, step)
    ensures Decided(s, step, Next(s, step), i)
  {
    match step
    case Subscribe(c, h) => SubscribeDecides(s, c, h, i);
    case Unsubscribe(j) => UnsubscribeDecides(s, j, i);
    case PoolFail(n) => ConnectEndDecides(s, n, PoolFailed, i);
    case FinishLoop(n) => LoopEndDecides(s, n, Resolved(s.connects[n].conn), i);
    case Execute(k) => ExecuteDecides(s, k, i);
    case Fail(k) => FailDecides(s, k, i);
    case SendListen(_) => CallStepDecides(s, step, i);
    case Catch(_) => CallStepDecides(s, step, i);
    case _ =>
      CallsUntouched(s, step);
      NothingDecided(s, step, Next(s, step), i);
  }

  ghost predicate RejectedAt(s: State, steps: seq<Step>, i: CallId, n: nat)
    requires ValidRun(s, steps)
  {
    n < |steps| && Rejects(StateAfter(s, steps, n), steps[n], i)
  }

  ghost predicate AcceptedAt(s: State, steps: seq<Step>, i: CallId, n: nat)
    requires ValidRun(s, steps)
  {
    n < |steps| && Accepts(StateAfter(s, steps, n), steps[n], i)
  }

  ghost predicate EverRejected(s: State, steps: seq<Step>, i: CallId)
    requires ValidRun(s, steps)
  {
    exists n :: RejectedAt(s, steps, i, n)
  }

  ghost predicate EverAccepted(s: State, steps: seq<Step>, i: CallId)
    requires ValidRun(s, steps)
  {
    exists n :: AcceptedAt(s, steps, i, n)
  }

  lemma EverFirst(s: State, steps: seq<Step>, i: CallId)
    requires steps != [] && ValidRun(s, steps)
    ensures EverRejected(s, steps, i) <==>
              Rejects(s, steps[0], i) || EverRejected(Next(s, steps[0]), steps[1..], i)
    ensures EverAccepted(s, steps, i) <==>
              Accepts(s, steps[0], i) || EverAccepted(Next(s, steps[0]), steps[1..], i)
  {
    var s', rest := Next(s, steps[0]), steps[1..];
    assert RejectedAt(s, steps, i, 0) <==> Rejects(s, steps[0], i);
    assert AcceptedAt(s, steps, i, 0) <==> Accepts(s, steps[0], i);
    forall n: nat
      ensures RejectedAt(s', rest, i, n) <==> RejectedAt(s, steps, i, n + 1)
      ensures AcceptedAt(s', rest, i, n) <==> AcceptedAt(s, steps, i, n + 1)
    {
    }
    if EverRejected(s, steps, i) {
      var n: nat :| RejectedAt(s, steps, i, n);
      assert n > 0 ==> RejectedAt(s', rest, i, n - 1);
    }
    if EverAccepted(s, steps, i) {
      var n: nat :| AcceptedAt(s, steps, i, n);
      assert n > 0 ==> AcceptedAt(s', rest, i, n - 1);
    }
  }

  lemma {:induction false} RunDecides(s: State, steps: seq<Step>, i: CallId)
    requires Good(s) && ValidRun(s, steps)
    ensures Rejected(Run(s, steps), i) <==> Rejected(s, i) || EverRejected(s, steps, i)
    ensures Succeeded(Run(s, steps), i) <==> Succeeded(s, i) || EverAccepted(s, steps, i)
    decreases steps
  {
    if steps != [] {
      StepDecides(s, steps[0], i);
      StepKeepsRefines(s, steps[0]);
      RunDecides(Next(s, steps[0]), steps[1..], i);
      EverFirst(s, steps, i);
    }
  }

  /**
   * On every run, a subscribe call is rejected if and only if the pool refused the
   * connect() that it waited for, or a re-LISTEN of that connect() or its own LISTEN was
   * refused; and it succeeds if and only if its LISTEN was answered, or there was no
   * client to send it to when its turn came.
   */
  lemma SubscribeOutcome(steps: seq<Step>, i: CallId)
    requires ValidRun(Init(), steps)
    ensures Rejected(Run(Init(), steps), i) <==> EverRejected(Init(), steps, i)
    ensures Succeeded(Run(Init(), steps), i) <==> EverAccepted(Init(), steps, i)
  {
    InitIsGood();
    RunDecides(Init(), steps, i);
  }

  // ---- unsubscribe and close ----

  lemma UnlistenDrains(c: Channel, on: bool, q: seq<Command>, all: bool)
    ensures !Drains(c, on, q + [Unlisten(c)], all)
  {
    DrainsSnoc(c, on, q, Unlisten(c), all);
  }

  /**
   * When an unsubscribe takes a channel's last handler, the current client no longer
   * listens to it once its queue drains; any other unsubscribe sends nothing.
   */
  lemma LastUnsubscribeIsUnheard(s: State, i: CallId)
    requires Good(s) && Enabled(s, Unsubscribe(i))
    ensures var c, t := s.calls[i].channel, Next(s, Unsubscribe(i));
            && (c in s.handlers && c !in t.handlers ==>
                  forall k, on, all :: s.client == Some(k) && k < |t.conns| ==> !Drains(c, on, t.conns[k].queue, all))
            && (c in s.handlers ==> (c !in t.handlers <==>
                  RegisteredFor(s, c) <= {s.calls[i].handler}))
            && (c !in s.handlers || c in t.handlers || s.client.None? ==> t.conns == s.conns)
  {
    var c, t := s.calls[i].channel, Next(s, Unsubscribe(i));
    if c in s.handlers && c !in t.handlers && s.client.Some? {
      var k := s.client.value;
      assert t.conns[k].queue == s.conns[k].queue + [Unlisten(c)];
      forall on, all ensures !Drains(c, on, t.conns[k].queue, all) {
        UnlistenDrains(c, on, s.conns[k].queue, all);
      }
    }
  }

  /** close() drops every subscription, whatever is in flight, and gives the held connection back. */
  lemma CloseDropsEverything(s: State)
    requires Good(s)
    ensures var t := Next(s, Close);
            && Typed(t) && t.closed && t.client.None? && t.handlers == map[]
            && (forall c :: RegisteredFor(t, c) == {})
            && |t.conns| == |s.conns| && t.releases == |t.conns|
            && (forall k :: 0 <= k < |t.conns| ==> t.conns[k].releases == 1 && !t.conns[k].attached)
            && t.calls == s.calls && t.connecting == s.connecting
  {
    StepKeepsRefines(s, Close);
  }
}
