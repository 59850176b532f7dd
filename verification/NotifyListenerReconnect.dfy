/** What replaces a dropped connection, and exactly when an open listener is left without one. */
module NotifyListenerReconnect {
  import opened Base
  import opened NotifyListener
  import opened NotifyListenerRefinement
  import opened NotifyListenerRelisten
  import opened NotifyListenerRuns

  // ---- one drop ----

  /** The connect() that `connecting` names is in flight. */
  predicate Connecting(s: State) {
    s.connecting.Some? && s.connecting.value < |s.connects| && s.connects[s.connecting.value].Active()
  }

  /**
   * After the error event of the client of an open listener: the client is given up and
   * released once, the registry is untouched, and a connect() is in flight if any
   * channel is registered, a new one unless one was in flight already; if none is
   * registered, nothing is started.
   */
  lemma ErrorEventReconnects(s: State, k: ConnId)
    requires Good(s) && !s.closed && Enabled(s, ErrorEvent(k))
    ensures s.client == Some(k)
    ensures var t := Next(s, ErrorEvent(k));
            && t.client.None? && !t.closed && k < |t.conns| && !t.conns[k].attached && t.conns[k].releases == 1
            && t.handlers == s.handlers && t.sets == s.sets && t.calls == s.calls
            && (s.handlers != map[] ==> Connecting(t))
            && |t.connects| == |s.connects| + (if s.handlers != map[] && s.connecting.None? then 1 else 0)
            && (s.handlers == map[] || s.connecting.Some? ==> t.connects == s.connects && t.connecting == s.connecting)
  {
    var t := Next(s, ErrorEvent(k));
    StepKeepsRefines(s, ErrorEvent(k));
    KeysAreChannels(s);
  }

  lemma KeysAreChannels(s: State)
    requires Good(s)
    ensures s.keys == [] <==> s.handlers == map[]
  {
    if s.keys != [] {
      assert s.keys[0] in s.keys && s.keys[0] in s.handlers;
    }
    if s.handlers != map[] {
      var c :| c in s.handlers;
      assert c in s.keys;
    }
  }

  /** A subscribe on an open listener without a client waits for a connect() that is in flight. */
  lemma SubscribeConnects(s: State, c: Channel, h: Handler)
    requires Good(s) && !s.closed && s.client.None?
    ensures var t := Next(s, Subscribe(c, h));
            && Connecting(t) && |t.calls| == |s.calls| + 1
            && t.calls[|s.calls|].pc == AwaitConnect(t.connecting.value)
  {
    StepKeepsRefines(s, Subscribe(c, h));
  }

  // ---- whole runs ----

  predicate Idle(s: State) {
    s.client.None? && s.connecting.None?
  }

  /** A connect() ends while there is no client. */
  ghost predicate EndsWithoutClient(s: State, step: Step) {
    Typed(s) && Enabled(s, step) && s.client.None? && s.connecting.Some? && Next(s, step).connecting.None?
  }

  ghost predicate NoSubscribe(steps: seq<Step>) {
    forall j :: 0 <= j < |steps| ==> !steps[j].Subscribe?
  }

  lemma ClosedStays(s: State, step: Step)
    requires Typed(s) && Enabled(s, step) && s.closed
    ensures Next(s, step).closed
  {
  }

  lemma {:induction false} RunStaysClosed(s: State, steps: seq<Step>)
    requires Good(s) && ValidRun(s, steps) && s.closed
    ensures Run(s, steps).closed
    decreases steps
  {
    if steps != [] {
      ClosedStays(s, steps[0]);
      StepKeepsRefines(s, steps[0]);
      RunStaysClosed(Next(s, steps[0]), steps[1..]);
    }
  }

  /** Only a subscribe registers a channel. */
  lemma NoNewChannels(s: State, step: Step)
    requires Typed(s) && Enabled(s, step) && !step.Subscribe? && s.handlers == map[]
    ensures Next(s, step).handlers == map[]
  {
  }

  lemma {:induction false} NoSubscribeNoChannels(s: State, steps: seq<Step>)
    requires Good(s) && ValidRun(s, steps) && NoSubscribe(steps) && s.handlers == map[]
    ensures Run(s, steps).handlers == map[]
    decreases steps
  {
    if steps != [] {
      NoNewChannels(s, steps[0]);
      StepKeepsRefines(s, steps[0]);
      NoSubscribeNoChannels(Next(s, steps[0]), steps[1..]);
    }
  }

  /** How an open listener comes to be, and stays, without client and connect(). */
  ghost predicate IdleLaw(s: State, step: Step)
    requires Typed(s) && Enabled(s, step)
  {
    var t := Next(s, step);
    && (Idle(s) ==> (Idle(t) <==> !step.Subscribe?))
    && (EndsWithoutClient(s, step) ==> Idle(t))
    && (!Idle(s) && Idle(t) ==> EndsWithoutClient(s, step) || t.handlers == map[])
  }

  lemma IdleSubscribe(s: State, c: Channel, h: Handler)
    requires Good(s) && !s.closed
    ensures IdleLaw(s, Subscribe(c, h))
  {
    if s.client.None? {
      SubscribeConnects(s, c, h);
    } else {
      assert Next(s, Subscribe(c, h)).client == s.client;
    }
  }

  lemma IdleErrorEvent(s: State, k: ConnId)
    requires Good(s) && !s.closed && Enabled(s, ErrorEvent(k))
    ensures IdleLaw(s, ErrorEvent(k))
  {
    ErrorEventReconnects(s, k);
  }

  /** A step that leaves the client alone keeps the connect() in flight, or ends it. */
  lemma IdleOther(s: State, step: Step)
    requires Typed(s) && Enabled(s, step) && !step.Subscribe?
    requires Next(s, step).client == s.client && (s.connecting.None? ==> Next(s, step).connecting.None?)
    ensures IdleLaw(s, step)
  {
  }

  lemma ExecuteKeepsClient(s: State, k: ConnId)
    requires k < |s.conns| && s.conns[k].queue != []
    ensures AfterExecute(s, k).client == s.client && AfterExecute(s, k).connecting == s.connecting
  {
  }

  lemma FailKeepsClient(s: State, k: ConnId)
    requires k < |s.conns| && s.conns[k].queue != []
    ensures AfterFail(s, k).client == s.client
    ensures AfterFail(s, k).connecting == s.connecting || AfterFail(s, k).connecting.None?
  {
  }

  lemma IdleStep(s: State, step: Step)
    requires Good(s) && Enabled(s, step) && !s.closed && !step.Close?
    ensures IdleLaw(s, step)
  {
    match step
    case Subscribe(c, h) => IdleSubscribe(s, c, h);
    case ErrorEvent(k) => IdleErrorEvent(s, k);
    case PoolOk(n, _) => assert s.connects[n].Active();
    case Execute(k) =>
      ExecuteKeepsClient(s, k);
      IdleOther(s, step);
    case Fail(k) =>
      FailKeepsClient(s, k);
      IdleOther(s, step);
    case _ => IdleOther(s, step);
  }

  /** A connect() ended without a client after n steps of the run, and nobody subscribed since. */
  ghost predicate DesertedAt(s: State, steps: seq<Step>, n: nat)
    requires ValidRun(s, steps)
  {
    n < |steps| && EndsWithoutClient(StateAfter(s, steps, n), steps[n]) && NoSubscribe(steps[n + 1..])
  }

  lemma DesertedShift(s: State, steps: seq<Step>, n: nat)
    requires steps != [] && ValidRun(s, steps)
    ensures DesertedAt(Next(s, steps[0]), steps[1..], n) <==> DesertedAt(s, steps, n + 1)
  {
    if n < |steps[1..]| {
      assert steps[1..][n + 1..] == steps[n + 2..];
    }
  }

  lemma DesertedFirst(s: State, steps: seq<Step>)
    requires steps != [] && ValidRun(s, steps)
    ensures DesertedAt(s, steps, 0) <==> EndsWithoutClient(s, steps[0]) && NoSubscribe(steps[1..])
  {
    assert StateAfter(s, steps, 0) == s;
  }

  ghost predicate Deserted(s: State, steps: seq<Step>)
    requires ValidRun(s, steps)
  {
    exists n :: DesertedAt(s, steps, n)
  }

  lemma DesertedLater(s: State, steps: seq<Step>)
    requires steps != [] && ValidRun(s, steps)
    ensures Deserted(s, steps)
            <==> DesertedAt(s, steps, 0) || Deserted(Next(s, steps[0]), steps[1..])
  {
    if Deserted(s, steps) {
      var n: nat :| DesertedAt(s, steps, n);
      if n > 0 {
        DesertedShift(s, steps, n - 1);
        assert DesertedAt(Next(s, steps[0]), steps[1..], n - 1);
      }
    }
    if Deserted(Next(s, steps[0]), steps[1..]) {
      var n: nat :| DesertedAt(Next(s, steps[0]), steps[1..], n);
      DesertedShift(s, steps, n);
      assert DesertedAt(s, steps, n + 1);
    }
  }

  lemma {:induction false} IdleExactly(s: State, steps: seq<Step>)
    requires Good(s) && ValidRun(s, steps) && !Run(s, steps).closed && Run(s, steps).handlers != map[]
    ensures Idle(Run(s, steps)) <==> (Idle(s) && NoSubscribe(steps)) || Deserted(s, steps)
    decreases steps
  {
    if steps != [] {
      var step, rest := steps[0], steps[1..];
      var s' := Next(s, step);
      StepKeepsRefines(s, step);
      if s'.closed {
        RunStaysClosed(s', rest);
      } else {
        OpenBefore(s, step);
        IdleStep(s, step);
        IdleExactly(s', rest);
        NoSubscribeFirst(steps);
        if NoSubscribe(rest) && s'.handlers == map[] { NoSubscribeNoChannels(s', rest); }
        DesertedFirst(s, steps);
        DesertedLater(s, steps);
      }
    }
  }

  lemma OpenBefore(s: State, step: Step)
    requires Typed(s) && Enabled(s, step) && !Next(s, step).closed
    ensures !s.closed && !step.Close?
  {
    if s.closed { ClosedStays(s, step); }
  }

  lemma NoSubscribeFirst(steps: seq<Step>)
    requires steps != []
    ensures NoSubscribe(steps) <==> !steps[0].Subscribe? && NoSubscribe(steps[1..])
  {
    assert forall j :: 0 <= j < |steps| - 1 ==> steps[1..][j] == steps[j + 1];
    if !steps[0].Subscribe? && NoSubscribe(steps[1..]) {
      forall j | 0 <= j < |steps| ensures !steps[j].Subscribe? {
        if j > 0 { assert !steps[1..][j - 1].Subscribe?; }
      }
    }
  }

  /**
   * On every run of a new listener, an open listener with registered channels has
   * neither client nor connect() in flight if and only if some connect() ended while
   * there was no client and nobody subscribed since.
   */
  lemma DesertedExactly(steps: seq<Step>)
    requires ValidRun(Init(), steps) && !Run(Init(), steps).closed && Run(Init(), steps).handlers != map[]
    ensures Idle(Run(Init(), steps)) <==> Deserted(Init(), steps)
  {
    InitIsGood();
    IdleExactly(Init(), steps);
    if NoSubscribe(steps) {
      NoSubscribeNoChannels(Init(), steps);
    }
  }

  /**
   * The three ways a connect() ends without a client: the pool refused; a re-LISTEN was
   * refused on a connection already dropped; or the loop finished on a connection that
   * dropped meanwhile, with nothing refused.
   */
  lemma EndsWithoutClientKinds(s: State, step: Step)
    requires Good(s) && EndsWithoutClient(s, step)
    ensures step.PoolFail? || step.Fail? || step.FinishLoop?
    ensures !step.PoolFail? ==>
              var n := s.connecting.value;
              n < |s.connects| && s.connects[n].Looping? && s.connects[n].conn < |s.conns|
              && !s.conns[s.connects[n].conn].attached && s.conns[s.connects[n].conn].releases == 1
  {
    assert s.connects[s.connecting.value].Active();
    match step
    case Subscribe(c, h) => if !s.closed { SubscribeConnects(s, c, h); }
    case Execute(k) =>
    case _ =>
  }

  // ---- a drop during the loop ----

  lemma ConnectionDropsEarly()
    ensures var s := OneSubscriber(Some(0), Some(0), [Conn(0, [], {}, false, true, 0)],
                                   [Looping(0, [], None)], AwaitConnect(0), 0);
            Reachable(s) && Typed(s)
  {
    var s4 := OneSubscriber(Some(0), Some(0), [Conn(0, [], {RUN_CHANNEL}, true, true, 0)],
                            [Looping(0, [], None)], AwaitConnect(0), 0);
    RelistenAnswered();
    var s5 := OneSubscriber(Some(0), Some(0), [Conn(0, [], {}, false, true, 0)],
                            [Looping(0, [], None)], AwaitConnect(0), 0);
    assert Next(s4, Drop(0)) == s5;
    ReachedBy(s4, Drop(0), s5);
  }

  lemma DropsDuringLoop()
    ensures var s := OneSubscriber(None, Some(0), [LOST], [Looping(0, [], None)], AwaitConnect(0), 1);
            Reachable(s) && Typed(s)
  {
    var s5 := OneSubscriber(Some(0), Some(0), [Conn(0, [], {}, false, true, 0)],
                            [Looping(0, [], None)], AwaitConnect(0), 0);
    var s6 := OneSubscriber(None, Some(0), [LOST], [Looping(0, [], None)], AwaitConnect(0), 1);
    ConnectionDropsEarly();
    assert Next(s5, ErrorEvent(0)) == s6;
    ReachedBy(s5, ErrorEvent(0), s6);
  }

  const DESERTED: State := OneSubscriber(None, None, [LOST], [Resolved(0)], Subscribed, 1)

  lemma LoopFinishes()
    ensures var s := OneSubscriber(None, None, [LOST], [Resolved(0)], Ready, 1); Reachable(s) && Typed(s)
  {
    var s6 := OneSubscriber(None, Some(0), [LOST], [Looping(0, [], None)], AwaitConnect(0), 1);
    var s7 := OneSubscriber(None, None, [LOST], [Resolved(0)], Ready, 1);
    DropsDuringLoop();
    assert Next(s6, FinishLoop(0)) == s7;
    ReachedBy(s6, FinishLoop(0), s7);
  }

  /**
   * Without any refusal: the connection drops after the last re-LISTEN was answered and
   * before its loop ends, reconnect() joins the connect() that is ending, and the
   * subscribe succeeds on an open listener that has no connection and asks for none.
   */
  lemma DropDuringLoopDeserts()
    ensures Reachable(DESERTED) && !DESERTED.closed && RUN_CHANNEL in DESERTED.handlers && Idle(DESERTED)
    ensures DESERTED.connects == [Resolved(0)] && DESERTED.calls == [Call(RUN_CHANNEL, 7, 0, Subscribed)]
    ensures forall step :: Enabled(DESERTED, step) ==> step.Subscribe? || step.Unsubscribe? || step.Close?
  {
    var s7 := OneSubscriber(None, None, [LOST], [Resolved(0)], Ready, 1);
    LoopFinishes();
    assert Next(s7, SendListen(0)) == DESERTED;
    ReachedBy(s7, SendListen(0), DESERTED);
    OnlyCallersMove();
  }

  lemma OnlyCallersMove()
    ensures forall step :: Enabled(DESERTED, step) ==> step.Subscribe? || step.Unsubscribe? || step.Close?
  {
  }
}
