/**
 * Failure atomicity of subscribe: when the registry is exactly the live subscribes,
 * and which endings take another subscribe's registration with them.
 */
module NotifyListenerSubscribers {
  import opened NotifyListener
  import opened NotifyListenerRegistry
  import opened NotifyListenerRefinement
  import opened NotifyListenerRuns

  /** Call i's handler is in the Set its closure captured, and that Set is the channel's. */
  ghost predicate HoldsHandler(s: State, i: CallId)
    requires i < |s.calls|
  {
    Current(s, i) && s.calls[i].setId < |s.sets| && s.calls[i].handler in s.sets[s.calls[i].setId].members
  }

  ghost predicate AllHeld(s: State) {
    forall i :: 0 <= i < |s.calls| && s.calls[i].pc.Live() ==> HoldsHandler(s, i)
  }

  predicate SameHandler(s: State, i: CallId, j: CallId)
    requires i < |s.calls| && j < |s.calls|
  {
    s.calls[j].channel == s.calls[i].channel && s.calls[j].handler == s.calls[i].handler
  }

  /** Another subscribe call is live with the channel and the handler of call i. */
  ghost predicate Shared(s: State, i: CallId)
    requires i < |s.calls|
  {
    exists j :: 0 <= j < |s.calls| && j != i && s.calls[j].pc.Live() && SameHandler(s, i, j)
  }

  /** The step ends a call whose handler another live call shares: a caller can see this before taking it. */
  ghost predicate Evicts(s: State, step: Step) {
    (step.Catch? || step.Unsubscribe?) && step.call < |s.calls| && Shared(s, step.call)
  }

  // ---- one step ----

  /** The same calls, none of them revived. */
  ghost predicate Aged(s: State, t: State) {
    && |t.calls| == |s.calls|
    && forall i :: 0 <= i < |s.calls| ==>
         && t.calls[i].channel == s.calls[i].channel && t.calls[i].handler == s.calls[i].handler
         && t.calls[i].setId == s.calls[i].setId && (t.calls[i].pc.Live() ==> s.calls[i].pc.Live())
  }

  ghost predicate SameRegistry(s: State, t: State) {
    t.handlers == s.handlers && t.sets == s.sets && Aged(s, t)
  }

  lemma SameRegistryHeld(s: State, t: State)
    requires AllHeld(s) && SameRegistry(s, t)
    ensures AllHeld(t)
  {
    forall i | 0 <= i < |t.calls| && t.calls[i].pc.Live() ensures HoldsHandler(t, i) {
      assert HoldsHandler(s, i);
    }
  }

  lemma RegisteredStays(s: State, c: Channel, h: Handler)
    requires Typed(s)
    ensures var t := AfterRegister(s, c, h);
            && c in t.handlers && t.handlers[c] < |t.sets| && h in t.sets[t.handlers[c]].members
            && (forall c' :: c' in s.handlers ==> c' in t.handlers && t.handlers[c'] == s.handlers[c'])
            && (forall a :: 0 <= a < |s.sets| ==> a < |t.sets| && s.sets[a].members <= t.sets[a].members)
  {
  }

  lemma SubscribeHeld(s: State, c: Channel, h: Handler)
    requires Typed(s) && AllHeld(s)
    ensures AllHeld(AfterSubscribe(s, c, h))
  {
    var t := AfterSubscribe(s, c, h);
    SubscribeShape(s, c, h);
    RegisteredStays(s, c, h);
    forall i | 0 <= i < |t.calls| && t.calls[i].pc.Live() ensures HoldsHandler(t, i) {
      if i < |s.calls| {
        assert t.calls[i] == s.calls[i] && HoldsHandler(s, i);
      }
    }
  }

  /** What removing h from Set a of channel c does to a call that held its handler. */
  lemma RemoveSpares(s: State, a: SetId, c: Channel, h: Handler, j: CallId)
    requires Typed(s) && RegistryShape(s) && a < |s.sets| && s.sets[a].channel == c
    requires j < |s.calls| && HoldsHandler(s, j)
    ensures var t := AfterRemove(s, a, c, h);
            HoldsHandler(t, j)
            <==> (s.calls[j].channel == c ==>
                    if s.handlers[c] == a then s.calls[j].handler != h else s.sets[a].members - {h} != {})
  {
    var call, left := s.calls[j], s.sets[a].members - {h};
    var t := AfterRemove(s, a, c, h);
    assert s.sets[call.setId].channel == call.channel;
    if call.channel == c && s.handlers[c] == a {
      assert call.handler != h ==> call.handler in left;
    }
  }

  lemma EndedPc(s: State, i: CallId, pc: Pc, j: CallId)
    requires i < |s.calls| && j < |s.calls| && j != i
    ensures HoldsHandler(SetPc(s, i, pc), j) <==> HoldsHandler(s, j)
  {
  }

  /** Ending call i by removing its handler from the channel's Set keeps the others exactly if none shares it. */
  lemma RemoveHeld(s: State, a: SetId, i: CallId, pc: Pc)
    requires Typed(s) && RegistryShape(s) && AllHeld(s) && i < |s.calls| && !pc.Live()
    requires s.calls[i].channel in s.handlers && a == s.handlers[s.calls[i].channel]
    ensures AllHeld(SetPc(AfterRemove(s, a, s.calls[i].channel, s.calls[i].handler), i, pc)) <==> !Shared(s, i)
  {
    var c, h := s.calls[i].channel, s.calls[i].handler;
    var u := AfterRemove(s, a, c, h);
    var t := SetPc(u, i, pc);
    assert u.calls == s.calls;
    forall j | 0 <= j < |t.calls| && j != i && t.calls[j].pc.Live()
      ensures HoldsHandler(t, j) <==> !SameHandler(s, i, j)
    {
      assert t.calls[j] == s.calls[j] && HoldsHandler(s, j);
      RemoveSpares(s, a, c, h, j);
      EndedPc(u, i, pc, j);
    }
    if Shared(s, i) {
      var j :| 0 <= j < |s.calls| && j != i && s.calls[j].pc.Live() && SameHandler(s, i, j);
      assert t.calls[j].pc.Live() && !HoldsHandler(t, j);
    } else {
      forall j | 0 <= j < |t.calls| && t.calls[j].pc.Live() ensures HoldsHandler(t, j) {
        assert j != i && t.calls[j] == s.calls[j];
      }
    }
  }

  lemma CatchHeld(s: State, i: CallId)
    requires Sound(s) && AllHeld(s) && Enabled(s, Catch(i))
    ensures AllHeld(AfterCatch(s, i)) <==> !Shared(s, i)
  {
    assert HoldsHandler(s, i);
    CatchShape(s, i);
    RemoveHeld(s, s.calls[i].setId, i, Failed);
  }

  lemma UnsubscribeHeld(s: State, i: CallId)
    requires Sound(s) && AllHeld(s) && Enabled(s, Unsubscribe(i))
    ensures AllHeld(AfterUnsubscribe(s, i)) <==> !Shared(s, i)
  {
    var call := s.calls[i];
    if call.channel !in s.handlers {
      assert !Shared(s, i);
      SameRegistryHeld(s, AfterUnsubscribe(s, i));
    } else {
      var a := s.handlers[call.channel];
      RemoveHeld(s, a, i, Unsubscribed);
      UnsubscribeShape(s, i);
      SameHoldings(SetPc(AfterRemove(s, a, call.channel, call.handler), i, Unsubscribed), AfterUnsubscribe(s, i));
    }
  }

  lemma SameHoldings(s: State, t: State)
    requires t.calls == s.calls && t.handlers == s.handlers && t.sets == s.sets
    ensures AllHeld(t) <==> AllHeld(s)
  {
    if AllHeld(s) { SameRegistryHeld(s, t); }
    if AllHeld(t) { SameRegistryHeld(t, s); }
  }

  // Steps that end no call leave the registry alone and revive no call.

  lemma SendListenAges(s: State, i: CallId)
    requires Typed(s) && Enabled(s, SendListen(i))
    ensures SameRegistry(s, AfterSendListen(s, i))
  {
  }

  lemma ExecuteAges(s: State, k: ConnId)
    requires k < |s.conns| && s.conns[k].queue != [] && Awaited(s, k, s.conns[k].queue[0])
    ensures SameRegistry(s, AfterExecute(s, k))
  {
  }

  lemma FailAges(s: State, k: ConnId)
    requires k < |s.conns| && s.conns[k].queue != [] && Awaited(s, k, s.conns[k].queue[0])
    ensures SameRegistry(s, AfterFail(s, k))
  {
  }

  lemma ConnectEndsAges(s: State, n: ConnectId, phase: Connect, pc: Pc)
    requires n < |s.connects|
    ensures SameRegistry(s, AfterConnectEnds(s, n, phase, pc))
  {
  }

  lemma ConnectionStepAges(s: State, step: Step)
    requires Typed(s) && Enabled(s, step)
    requires step.PoolOk? || step.SendRelisten? || step.Drop? || step.ErrorEvent?
    ensures SameRegistry(s, Next(s, step))
  {
  }

  lemma OtherStepAges(s: State, step: Step)
    requires Sound(s) && Enabled(s, step)
    requires !step.Subscribe? && !step.Catch? && !step.Unsubscribe? && !step.Close?
    ensures SameRegistry(s, Next(s, step))
  {
    if step.SendListen? {
      SendListenAges(s, step.call);
    } else if step.PoolFail? {
      ConnectEndsAges(s, step.connect, PoolFailed, Throwing);
    } else if step.FinishLoop? {
      ConnectEndsAges(s, step.connect, Resolved(s.connects[step.connect].conn), Ready);
    } else if step.Execute? {
      assert Awaited(s, step.conn, s.conns[step.conn].queue[0]);
      ExecuteAges(s, step.conn);
    } else if step.Fail? {
      assert Awaited(s, step.conn, s.conns[step.conn].queue[0]);
      FailAges(s, step.conn);
    } else {
      ConnectionStepAges(s, step);
    }
  }

  /**
   * In any state where each live subscribe holds its registration, a step other than
   * close keeps that if and only if it does not end a call whose handler is shared.
   */
  lemma StepKeepsHeldExactly(s: State, step: Step)
    requires Sound(s) && AllHeld(s) && Enabled(s, step) && !step.Close?
    ensures AllHeld(Next(s, step)) <==> !Evicts(s, step)
  {
    if step.Subscribe? {
      SubscribeHeld(s, step.channel, step.handler);
    } else if step.Catch? {
      CatchHeld(s, step.call);
    } else if step.Unsubscribe? {
      UnsubscribeHeld(s, step.call);
    } else {
      OtherStepAges(s, step);
      SameRegistryHeld(s, Next(s, step));
    }
  }

  // ---- runs ----

  /** In every state the run passes, each live subscribe holds its registration. */
  ghost predicate AlwaysHeld(s: State, steps: seq<Step>)
    requires ValidRun(s, steps)
    decreases steps
  {
    AllHeld(s) && (steps == [] || AlwaysHeld(Next(s, steps[0]), steps[1..]))
  }

  ghost predicate Undisturbed(s: State, steps: seq<Step>)
    requires ValidRun(s, steps)
    decreases steps
  {
    steps == [] || (!Evicts(s, steps[0]) && Undisturbed(Next(s, steps[0]), steps[1..]))
  }

  lemma {:induction false} HeldExactlyWhenUndisturbed(s: State, steps: seq<Step>)
    requires Good(s) && AllHeld(s) && ValidRun(s, steps) && forall step :: step in steps ==> !step.Close?
    ensures AlwaysHeld(s, steps) <==> Undisturbed(s, steps)
    decreases steps
  {
    if steps != [] {
      assert steps[0] in steps;
      StepKeepsRefines(s, steps[0]);
      StepKeepsHeldExactly(s, steps[0]);
      if !Evicts(s, steps[0]) {
        HeldExactlyWhenUndisturbed(Next(s, steps[0]), steps[1..]);
      } else {
        NotHeldNow(Next(s, steps[0]), steps[1..]);
      }
    }
  }

  lemma NotHeldNow(s: State, steps: seq<Step>)
    requires ValidRun(s, steps) && !AllHeld(s)
    ensures !AlwaysHeld(s, steps)
  {
  }

  /**
   * Before close, every live subscribe holds its registration in every state of a run
   * if and only if no step of the run ends a call whose handler another live call
   * shares: neither a failure, nor an unsubscribe, nor a repeated unsubscribe.
   */
  lemma RegistrationsLastExactlyWithoutEviction(steps: seq<Step>)
    requires ValidRun(Init(), steps) && forall step :: step in steps ==> !step.Close?
    ensures AlwaysHeld(Init(), steps) <==> Undisturbed(Init(), steps)
  {
    InitIsGood();
    HeldExactlyWhenUndisturbed(Init(), steps);
  }

  lemma ClosedStays(s: State, step: Step)
    requires Typed(s) && Enabled(s, step) && (s.closed || step.Close?)
    ensures Next(s, step).closed
  {
    if step.Subscribe? { SubscribeShape(s, step.channel, step.handler); }
  }

  lemma {:induction false} OpenRunHeld(s: State, steps: seq<Step>)
    requires Good(s) && AllHeld(s) && ValidRun(s, steps) && Undisturbed(s, steps) && !Run(s, steps).closed
    ensures Good(Run(s, steps)) && AllHeld(Run(s, steps))
    decreases steps
  {
    if steps != [] {
      var t := Next(s, steps[0]);
      StepKeepsRefines(s, steps[0]);
      if steps[0].Close? {
        ClosedStays(s, steps[0]);
        ClosedRun(t, steps[1..]);
      } else {
        StepKeepsHeldExactly(s, steps[0]);
        OpenRunHeld(t, steps[1..]);
      }
    }
  }

  lemma {:induction false} ClosedRun(s: State, steps: seq<Step>)
    requires ValidRun(s, steps) && s.closed
    ensures Run(s, steps).closed
    decreases steps
  {
    if steps != [] {
      ClosedStays(s, steps[0]);
      ClosedRun(Next(s, steps[0]), steps[1..]);
    }
  }

  ghost predicate LiveFor(s: State, c: Channel, h: Handler, i: CallId) {
    i < |s.calls| && s.calls[i].channel == c && s.calls[i].handler == h && s.calls[i].pc.Live()
  }

  lemma HeldIsRegistry(s: State, c: Channel)
    requires Sound(s) && AllHeld(s)
    ensures forall h :: h in RegisteredFor(s, c) <==> exists i :: LiveFor(s, c, h, i)
    ensures c in s.handlers <==> exists h, i :: LiveFor(s, c, h, i)
  {
    forall h | h in RegisteredFor(s, c)
      ensures exists i :: LiveFor(s, c, h, i)
    {
      var i: CallId :| Witness(s, s.handlers[c], h, i);
      assert LiveFor(s, c, h, i);
    }
    forall h, i: CallId | LiveFor(s, c, h, i)
      ensures h in RegisteredFor(s, c)
    {
      assert HoldsHandler(s, i);
    }
    if c in s.handlers {
      var h :| h in s.sets[s.handlers[c]].members;
      assert h in RegisteredFor(s, c);
    }
  }

  /**
   * Before close and without eviction, the registry is exactly the started subscribes
   * that have neither failed nor been unsubscribed, in every reachable state; a failed
   * retry therefore leaves no trace, and no empty channel entry.
   */
  lemma RegistryIsTheLiveSubscribes(steps: seq<Step>, c: Channel)
    requires ValidRun(Init(), steps) && !Run(Init(), steps).closed && Undisturbed(Init(), steps)
    ensures var s := Run(Init(), steps);
            && Typed(s)
            && (forall h :: h in RegisteredFor(s, c) <==> exists i :: LiveFor(s, c, h, i))
            && (c in s.handlers <==> exists h, i :: LiveFor(s, c, h, i))
  {
    InitIsGood();
    OpenRunHeld(Init(), steps);
    HeldIsRegistry(Run(Init(), steps), c);
  }

  // ---- callers that avoid eviction ----

  /** A subscribe starts only without a live call of its channel and handler, and a closure is called once. */
  ghost predicate Exclusive(s: State, steps: seq<Step>)
    requires ValidRun(s, steps)
    decreases steps
  {
    steps == []
    || (&& (steps[0].Subscribe? ==> forall i :: !LiveFor(s, steps[0].channel, steps[0].handler, i))
        && (steps[0].Unsubscribe? ==> s.calls[steps[0].call].pc.Subscribed?)
        && Exclusive(Next(s, steps[0]), steps[1..]))
  }

  ghost predicate LiveDiffer(s: State) {
    forall i, j ::
      0 <= i < |s.calls| && 0 <= j < |s.calls| && i != j && s.calls[i].pc.Live() && s.calls[j].pc.Live() ==>
        !SameHandler(s, i, j)
  }

  lemma CatchAges(s: State, i: CallId)
    requires i < |s.calls| && s.calls[i].setId < |s.sets|
    ensures Aged(s, AfterCatch(s, i))
  {
    CatchShape(s, i);
  }

  lemma UnsubscribeAges(s: State, i: CallId)
    requires Typed(s) && i < |s.calls|
    ensures Aged(s, AfterUnsubscribe(s, i))
  {
    if s.calls[i].channel in s.handlers { UnsubscribeShape(s, i); }
  }

  lemma CloseAges(s: State)
    requires Typed(s)
    ensures Aged(s, AfterClose(s))
  {
  }

  /** No step revives a call or changes its identity, and only subscribe adds one. */
  lemma CallsPersist(s: State, step: Step)
    requires Sound(s) && Enabled(s, step)
    ensures !step.Subscribe? ==> Aged(s, Next(s, step))
    ensures step.Subscribe? ==>
              var t := Next(s, step);
              && |t.calls| == |s.calls| + 1 && t.calls[..|s.calls|] == s.calls
              && t.calls[|s.calls|].channel == step.channel && t.calls[|s.calls|].handler == step.handler
  {
    if step.Subscribe? {
      SubscribeShape(s, step.channel, step.handler);
    } else if step.Catch? {
      CatchAges(s, step.call);
    } else if step.Unsubscribe? {
      UnsubscribeAges(s, step.call);
    } else if step.Close? {
      CloseAges(s);
    } else {
      OtherStepAges(s, step);
    }
  }

  lemma NewCallDiffers(s: State, t: State, c: Channel, h: Handler)
    requires LiveDiffer(s) && forall i :: !LiveFor(s, c, h, i)
    requires |t.calls| == |s.calls| + 1 && t.calls[..|s.calls|] == s.calls
    requires t.calls[|s.calls|].channel == c && t.calls[|s.calls|].handler == h
    ensures LiveDiffer(t)
  {
    forall i, j | 0 <= i < |t.calls| && 0 <= j < |t.calls| && i != j && t.calls[i].pc.Live() && t.calls[j].pc.Live()
      ensures !SameHandler(t, i, j)
    {
      if i < |s.calls| { assert t.calls[i] == s.calls[i] && !LiveFor(s, c, h, i); }
      if j < |s.calls| { assert t.calls[j] == s.calls[j] && !LiveFor(s, c, h, j); }
    }
  }

  lemma AgedDiffer(s: State, t: State)
    requires LiveDiffer(s) && Aged(s, t)
    ensures LiveDiffer(t)
  {
  }

  /** A caller that retries one handler, each time after the last attempt ended, evicts nobody. */
  lemma {:induction false} ExclusiveRunsAreUndisturbed(s: State, steps: seq<Step>)
    requires Good(s) && LiveDiffer(s) && ValidRun(s, steps) && Exclusive(s, steps)
    ensures Undisturbed(s, steps)
    decreases steps
  {
    if steps != [] {
      var t := Next(s, steps[0]);
      StepKeepsRefines(s, steps[0]);
      CallsPersist(s, steps[0]);
      if steps[0].Subscribe? {
        NewCallDiffers(s, t, steps[0].channel, steps[0].handler);
      } else {
        AgedDiffer(s, t);
      }
      assert !Evicts(s, steps[0]);
      ExclusiveRunsAreUndisturbed(t, steps[1..]);
    }
  }

  /** So does one whose subscribes never share a handler. */
  ghost predicate Distinct(s: State) {
    forall i, j :: 0 <= i < j < |s.calls| ==> s.calls[i].handler != s.calls[j].handler
  }

  lemma {:induction false} DistinctRunsAreUndisturbed(s: State, steps: seq<Step>)
    requires Good(s) && ValidRun(s, steps) && Distinct(Run(s, steps))
    ensures Undisturbed(s, steps) && Distinct(s)
    decreases steps
  {
    if steps != [] {
      var t := Next(s, steps[0]);
      StepKeepsRefines(s, steps[0]);
      CallsPersist(s, steps[0]);
      DistinctRunsAreUndisturbed(t, steps[1..]);
      forall i, j | 0 <= i < j < |s.calls| ensures s.calls[i].handler != s.calls[j].handler {
        assert t.calls[i].handler == s.calls[i].handler && t.calls[j].handler == s.calls[j].handler;
      }
    }
  }

  // ---- which registrations a failing subscribe takes with it ----

  ghost predicate HoldsOther(s: State, i: CallId, j: CallId)
    requires i < |s.calls|
  {
    j < |s.calls| && j != i && s.calls[j].pc.Live() && HoldsHandler(s, j) && s.calls[j].channel == s.calls[i].channel
  }

  /**
   * The catch block's guards, read before it runs. While the captured Set is the
   * channel's, no other registration may rest on the same handler. Once it has been
   * replaced, deleting from it must leave it non-empty, or nobody holds the channel.
   */
  ghost predicate FailsAlone(s: State, i: CallId)
    requires i < |s.calls| && s.calls[i].setId < |s.sets|
  {
    if Current(s, i) then forall j: CallId :: HoldsOther(s, i, j) ==> s.calls[j].handler != s.calls[i].handler
    else s.sets[s.calls[i].setId].members - {s.calls[i].handler} != {} || forall j: CallId :: !HoldsOther(s, i, j)
  }

  lemma CatchSpares(s: State, i: CallId, j: CallId)
    requires Typed(s) && RegistryShape(s) && i < |s.calls| && j < |s.calls| && j != i && HoldsHandler(s, j)
    ensures HoldsHandler(AfterCatch(s, i), j)
            <==> (s.calls[j].channel == s.calls[i].channel ==>
                    if Current(s, i) then s.calls[j].handler != s.calls[i].handler
                    else s.sets[s.calls[i].setId].members - {s.calls[i].handler} != {})
  {
    var a, c, h := s.calls[i].setId, s.calls[i].channel, s.calls[i].handler;
    CatchShape(s, i);
    RemoveSpares(s, a, c, h, j);
    EndedPc(AfterRemove(s, a, c, h), i, Failed, j);
  }

  /**
   * In every state the invariants allow, so in every reachable one, the catch block of
   * call i leaves every other live call its registration if and only if it fails alone.
   */
  lemma CatchSparesOthersExactly(s: State, i: CallId)
    requires Good(s) && Enabled(s, Catch(i))
    ensures Typed(s)
    ensures (forall j :: 0 <= j < |s.calls| && j != i && s.calls[j].pc.Live() && HoldsHandler(s, j) ==>
               j < |Next(s, Catch(i)).calls| && HoldsHandler(Next(s, Catch(i)), j))
            <==> FailsAlone(s, i)
  {
    var t, h := Next(s, Catch(i)), s.calls[i].handler;
    assert |t.calls| == |s.calls|;
    forall j | 0 <= j < |s.calls| && j != i && s.calls[j].pc.Live() && HoldsHandler(s, j)
      ensures HoldsHandler(t, j)
              <==> (HoldsOther(s, i, j) ==>
                      if Current(s, i) then s.calls[j].handler != h else s.sets[s.calls[i].setId].members - {h} != {})
    {
      CatchSpares(s, i, j);
    }
    if FailsAlone(s, i) {
      assert forall j: CallId :: HoldsOther(s, i, j) ==> HoldsHandler(t, j);
    } else {
      var j: CallId :| HoldsOther(s, i, j) && (Current(s, i) ==> s.calls[j].handler == h);
      assert !HoldsHandler(t, j);
    }
  }
}
