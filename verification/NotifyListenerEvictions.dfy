/** Two runs on which the failure of one subscribe takes the registration of another. */
module NotifyListenerEvictions {
  import opened Base
  import opened NotifyListener
  import opened NotifyListenerRuns
  import opened NotifyListenerRelisten
  import opened NotifyListenerSubscribers

  const C: Channel := RUN_CHANNEL

  /** Connection 0 is live and listens to the channel; no connect() is in flight. */
  function Connected(handlers: map<Channel, SetId>, keys: seq<Channel>, sets: seq<HandlerSet>,
                     queue: seq<Command>, calls: seq<Call>): State
  {
    State(Some(0), handlers, keys, None, false, sets, [Conn(0, queue, {C}, true, true, 0)], [Resolved(0)], calls, 0)
  }

  function Registered(queue: seq<Command>, calls: seq<Call>): State {
    Connected(map[C := 0], [C], [HandlerSet(C, {7})], queue, calls)
  }

  function CallOf(pc: Pc): Call { Call(C, 7, 0, pc) }

  function ListenOf(i: CallId): Command { Listen(C, Subscriber(i)) }

  lemma Singles()
    ensures {C} + {C} == {C} && {7} + {7} == {7} && {7} - {7} == {} && Without([C], C) == []
    ensures forall m: map<Channel, SetId> :: m == map[C := 0] ==> m - {C} == map[]
    ensures seq(1, n requires 0 <= n < 1 => DropPending([Resolved(0)][n], C)) == [Resolved(0)]
    ensures seq(1, n requires 0 <= n < 1 => AddPending([Resolved(0)][n], C)) == [Resolved(0)]
  {
    assert [C][1..] == [];
  }

  /** Two subscribes of handler 7, both with their LISTEN sent. */
  const BOTH_SENT: State := Registered([ListenOf(0), ListenOf(1)], [CallOf(AwaitListen(0)), CallOf(AwaitListen(0))])

  lemma SecondSubscribe()
    ensures var s := Registered([], [CallOf(Ready), CallOf(Ready)]); Reachable(s) && Typed(s)
  {
    Singles();
    var s0, s1 := Registered([], [CallOf(Ready)]), Registered([], [CallOf(Ready), CallOf(Ready)]);
    assert AfterRegister(s0, C, 7) == s0;
    assert Typed(s0) && Enabled(s0, Subscribe(C, 7));
    assert Next(s0, Subscribe(C, 7)) == s1;
    ReadyOnce();
    ReachedBy(s0, Subscribe(C, 7), s1);
  }

  lemma FirstSends()
    ensures var s := Registered([ListenOf(0)], [CallOf(AwaitListen(0)), CallOf(Ready)]); Reachable(s) && Typed(s)
  {
    var s1 := Registered([], [CallOf(Ready), CallOf(Ready)]);
    var s2 := Registered([ListenOf(0)], [CallOf(AwaitListen(0)), CallOf(Ready)]);
    assert [] + [ListenOf(0)] == [ListenOf(0)];
    assert Typed(s1) && Enabled(s1, SendListen(0));
    assert Next(s1, SendListen(0)) == s2;
    SecondSubscribe();
    ReachedBy(s1, SendListen(0), s2);
  }

  lemma BothSend()
    ensures Reachable(BOTH_SENT) && Typed(BOTH_SENT)
  {
    var s2 := Registered([ListenOf(0)], [CallOf(AwaitListen(0)), CallOf(Ready)]);
    assert [ListenOf(0)] + [ListenOf(1)] == [ListenOf(0), ListenOf(1)];
    assert Typed(s2) && Enabled(s2, SendListen(1));
    assert Next(s2, SendListen(1)) == BOTH_SENT;
    FirstSends();
    ReachedBy(s2, SendListen(1), BOTH_SENT);
  }

  // ---- the earlier subscribe fails and takes the later one with it ----

  const LATER_LOST: State := Connected(map[], [], [HandlerSet(C, {})], [], [CallOf(Failed), CallOf(Subscribed)])

  lemma FirstRefused()
    ensures var s := Registered([ListenOf(1)], [CallOf(Throwing), CallOf(AwaitListen(0))]); Reachable(s) && Typed(s)
  {
    var s1 := Registered([ListenOf(1)], [CallOf(Throwing), CallOf(AwaitListen(0))]);
    assert [ListenOf(0), ListenOf(1)][1..] == [ListenOf(1)];
    assert Typed(BOTH_SENT) && Enabled(BOTH_SENT, Fail(0));
    assert Next(BOTH_SENT, Fail(0)) == s1;
    BothSend();
    ReachedBy(BOTH_SENT, Fail(0), s1);
  }

  lemma SecondAnswered()
    ensures var s := Registered([], [CallOf(Throwing), CallOf(Subscribed)]); Reachable(s) && Typed(s)
  {
    Singles();
    var s1 := Registered([ListenOf(1)], [CallOf(Throwing), CallOf(AwaitListen(0))]);
    var s2 := Registered([], [CallOf(Throwing), CallOf(Subscribed)]);
    assert [ListenOf(1)][1..] == [];
    assert Typed(s1) && Enabled(s1, Execute(0));
    assert Next(s1, Execute(0)) == s2;
    FirstRefused();
    ReachedBy(s1, Execute(0), s2);
  }

  /**
   * The handler was not registered when the failing subscribe started. A second
   * subscribe of it has meanwhile succeeded, and loses its registration.
   */
  lemma EarlierFailureEvictsALaterSubscribe()
    ensures Reachable(LATER_LOST) && !LATER_LOST.closed
    ensures LATER_LOST.calls[0].pc.Failed? && LATER_LOST.calls[1] == Call(C, 7, 0, Subscribed)
    ensures C !in LATER_LOST.handlers && !HoldsHandler(LATER_LOST, 1)
  {
    Singles();
    var s := Registered([], [CallOf(Throwing), CallOf(Subscribed)]);
    assert Typed(s) && Enabled(s, Catch(0));
    assert Next(s, Catch(0)) == LATER_LOST;
    SecondAnswered();
    ReachedBy(s, Catch(0), LATER_LOST);
  }

  // ---- the failing subscribe's Set is no longer the channel's ----

  const OTHER_LOST: State :=
    Connected(map[], [], [HandlerSet(C, {}), HandlerSet(C, {8})], [Unlisten(C)],
              [CallOf(Unsubscribed), CallOf(Failed), Call(C, 8, 1, Ready)])

  lemma FirstAnswered()
    ensures var s := Registered([ListenOf(1)], [CallOf(Subscribed), CallOf(AwaitListen(0))]); Reachable(s) && Typed(s)
  {
    Singles();
    var s1 := Registered([ListenOf(1)], [CallOf(Subscribed), CallOf(AwaitListen(0))]);
    assert [ListenOf(0), ListenOf(1)][1..] == [ListenOf(1)];
    assert Typed(BOTH_SENT) && Enabled(BOTH_SENT, Execute(0));
    assert Next(BOTH_SENT, Execute(0)) == s1;
    BothSend();
    ReachedBy(BOTH_SENT, Execute(0), s1);
  }

  /** Handler 7 is unregistered while its second subscribe still waits. */
  const EMPTIED: State := Connected(map[], [], [HandlerSet(C, {})], [ListenOf(1), Unlisten(C)],
                                    [CallOf(Unsubscribed), CallOf(AwaitListen(0))])

  lemma FirstUnsubscribes()
    ensures Reachable(EMPTIED) && Typed(EMPTIED)
  {
    Singles();
    var s1 := Registered([ListenOf(1)], [CallOf(Subscribed), CallOf(AwaitListen(0))]);
    assert [ListenOf(1)] + [Unlisten(C)] == [ListenOf(1), Unlisten(C)];
    assert Typed(s1) && Enabled(s1, Unsubscribe(0));
    assert Next(s1, Unsubscribe(0)) == EMPTIED;
    FirstAnswered();
    ReachedBy(s1, Unsubscribe(0), EMPTIED);
  }

  /** Then handler 8 subscribes, under a new Set. */
  function Replaced(queue: seq<Command>, pc: Pc): State {
    Connected(map[C := 1], [C], [HandlerSet(C, {}), HandlerSet(C, {8})], queue,
              [CallOf(Unsubscribed), CallOf(pc), Call(C, 8, 1, Ready)])
  }

  lemma AnotherHandlerSubscribes()
    ensures var s := Replaced([ListenOf(1), Unlisten(C)], AwaitListen(0)); Reachable(s) && Typed(s)
  {
    Singles();
    var s3 := Replaced([ListenOf(1), Unlisten(C)], AwaitListen(0));
    assert {} + {8} == {8} && [] + [C] == [C];
    assert AfterRegister(EMPTIED, C, 8) == s3.(calls := EMPTIED.calls);
    assert Typed(EMPTIED) && Enabled(EMPTIED, Subscribe(C, 8));
    assert Next(EMPTIED, Subscribe(C, 8)) == s3;
    FirstUnsubscribes();
    ReachedBy(EMPTIED, Subscribe(C, 8), s3);
  }

  lemma SecondRefused()
    ensures var s := Replaced([Unlisten(C)], Throwing); Reachable(s) && Typed(s)
  {
    var s3, s4 := Replaced([ListenOf(1), Unlisten(C)], AwaitListen(0)), Replaced([Unlisten(C)], Throwing);
    assert [ListenOf(1), Unlisten(C)][1..] == [Unlisten(C)];
    assert Typed(s3) && Enabled(s3, Fail(0));
    assert Next(s3, Fail(0)) == s4;
    AnotherHandlerSubscribes();
    ReachedBy(s3, Fail(0), s4);
  }

  /** A stale Set that is empty makes the catch block delete the channel entry of another handler's subscribe. */
  lemma StaleFailureEvictsAnotherHandler()
    ensures Reachable(OTHER_LOST) && !OTHER_LOST.closed
    ensures OTHER_LOST.calls[2] == Call(C, 8, 1, Ready) && C !in OTHER_LOST.handlers && !HoldsHandler(OTHER_LOST, 2)
    ensures forall i :: 0 <= i < 2 ==> OTHER_LOST.calls[i].handler != 8
  {
    Singles();
    var s4 := Replaced([Unlisten(C)], Throwing);
    assert {} - {7} == {} && map[C := 1] - {C} == map[];
    assert Typed(s4) && Enabled(s4, Catch(1));
    assert Next(s4, Catch(1)) == OTHER_LOST;
    SecondRefused();
    ReachedBy(s4, Catch(1), OTHER_LOST);
  }
}
