/** From a committed row to a handler call: the scopes' notifications along one run of the listener. */
module WakeDelivery {
  import opened Base
  import L = NotifyListener
  import LR = NotifyListenerRuns
  import LS = NotifyListenerSubscribers
  import LT = NotifyListenerTheorems
  import P = PgListener
  import S = OrgScope
  import SC = OrgScopeTaskTheorems
  import SK = OrgScopeTasks
  import SW = OrgScopeWakes
  import ST = OrgScopeTheorems

  const NOTIFICATION_CHANNEL: L.Channel := "tanren_notify"
  const RUN_ACTIVITY_CHANNEL: L.Channel := "tanren_run"

  function ChannelOf(n: S.Notify): L.Channel {
    if n.EventAppended? then NOTIFICATION_CHANNEL else RUN_ACTIVITY_CHANNEL
  }

  // ---- a run of the listener and what arrives along it ----

  lemma {:induction false} StateAfterIsHeld(s: L.State, steps: seq<L.Step>, n: nat)
    requires LR.ValidRun(s, steps) && LS.AlwaysHeld(s, steps) && n <= |steps|
    ensures LS.AllHeld(LR.StateAfter(s, steps, n))
    decreases n
  {
    if n > 0 {
      StateAfterIsHeld(L.Next(s, steps[0]), steps[1..], n - 1);
    }
  }

  /**
   * A notification that arrives after `at` steps of the listener; `order` is the insertion
   * order of the channel's Set, and `throwing` are the handlers that throw on it.
   */
  datatype Delivery = Delivery(note: S.Notify, at: nat, order: seq<L.Handler>, throwing: set<L.Handler>)

  /** The held connection listens to the channel, so the server passes the notification on. */
  predicate Heard(s: L.State, c: L.Channel)
    requires L.Typed(s)
  {
    s.client.Some? && c in s.conns[s.client.value].listening
  }

  /** `order` lists the channel's handlers if the notification is heard, and is empty if it is not. */
  ghost predicate Arrives(s: L.State, d: Delivery)
    requires L.Typed(s)
  {
    && NoDuplicates(d.order)
    && forall h :: h in d.order <==> Heard(s, ChannelOf(d.note)) && h in LR.RegisteredFor(s, ChannelOf(d.note))
  }

  function Calls(d: Delivery, h: L.Handler): seq<S.Notify> {
    seq(multiset(P.Woken(d.order, d.throwing))[h], _ => d.note)
  }

  /** What handler h is called with over a run of deliveries, in order. */
  function Received(ds: seq<Delivery>, h: L.Handler): seq<S.Notify> {
    if ds == [] then [] else Calls(ds[0], h) + Received(ds[1..], h)
  }

  // ---- one delivery ----

  /** A handler before h in the Set throws, and the dispatch never comes to h. */
  ghost predicate CutOff(d: Delivery, h: L.Handler) {
    exists j, k :: 0 <= j < k < |d.order| && d.order[k] == h && d.order[j] in d.throwing
  }

  lemma {:induction false} DistinctCountsOne(order: seq<L.Handler>, h: L.Handler)
    requires NoDuplicates(order)
    ensures multiset(order)[h] == if h in order then 1 else 0
  {
    if order != [] {
      DistinctCountsOne(order[1..], h);
      assert order == [order[0]] + order[1..];
    }
  }

  /** A handler of the Set is called with the notification, once, exactly when no handler before it throws. */
  lemma CalledUnlessCutOff(d: Delivery, h: L.Handler)
    requires NoDuplicates(d.order)
    ensures Calls(d, h) == if h in d.order && !CutOff(d, h) then [d.note] else []
  {
    var woken := P.Woken(d.order, d.throwing);
    if h in d.order {
      var k: nat :| k < |d.order| && d.order[k] == h;
      P.WokenExactly(d.order, d.throwing, k);
      assert CutOff(d, h) <==> exists j :: 0 <= j < k && d.order[j] in d.throwing;
    } else if d.order != [] {
      P.WokenExactly(d.order, d.throwing, 0);
    }
    DistinctCountsOne(woken, h);
  }

  /**
   * A delivery calls exactly those handlers registered for a channel that is listened
   * to before which no handler of the channel throws, each once, and no other handler.
   */
  lemma DeliveryReachesExactlyItsHandlers(s: L.State, d: Delivery, h: L.Handler)
    requires L.Typed(s) && Arrives(s, d)
    ensures Calls(d, h)
         == if Heard(s, ChannelOf(d.note)) && h in LR.RegisteredFor(s, ChannelOf(d.note)) && !CutOff(d, h)
            then [d.note] else []
  {
    CalledUnlessCutOff(d, h);
  }

  // ---- when the dispatcher is heard ----

  /** h has a live subscribe for the dispatcher's channel, and none for the runs' channel. */
  ghost predicate SubscribedToEvents(s: L.State, h: L.Handler) {
    && (exists i :: LS.LiveFor(s, NOTIFICATION_CHANNEL, h, i))
    && (forall i :: !LS.LiveFor(s, RUN_ACTIVITY_CHANNEL, h, i))
  }

  /**
   * There is a live client, a subscribe for the dispatcher's channel has finished, and
   * the client's loop does not owe that channel. Other calls and channels may be busy.
   */
  ghost predicate EventsFlow(s: L.State)
    requires LR.Good(s)
  {
    && s.client.Some? && s.conns[s.client.value].alive
    && LT.Attended(s, NOTIFICATION_CHANNEL) && !LT.Owed(s, s.client.value, NOTIFICATION_CHANNEL)
  }

  /** A dispatcher with a live subscribe is registered, and heard wherever events flow. */
  lemma DispatcherIsHeardWhereEventsFlow(s: L.State, h: L.Handler)
    requires LR.Good(s) && LS.AllHeld(s) && SubscribedToEvents(s, h)
    ensures h in LR.RegisteredFor(s, NOTIFICATION_CHANNEL) && h !in LR.RegisteredFor(s, RUN_ACTIVITY_CHANNEL)
    ensures EventsFlow(s) ==> Heard(s, NOTIFICATION_CHANNEL)
  {
    LS.HeldIsRegistry(s, NOTIFICATION_CHANNEL);
    LS.HeldIsRegistry(s, RUN_ACTIVITY_CHANNEL);
    if EventsFlow(s) {
      LT.AttendedIsHeardUnlessOwed(s, s.client.value, NOTIFICATION_CHANNEL);
    }
  }

  // ---- along a run ----

  /** A delivery along the run, as the server sends it, while h has a subscribe for events only. */
  ghost predicate Along(steps: seq<L.Step>, d: Delivery, h: L.Handler)
    requires LR.ValidRun(L.Init(), steps)
  {
    && d.at <= |steps|
    && var s := LR.StateAfter(L.Init(), steps, d.at);
       L.Typed(s) && Arrives(s, d) && SubscribedToEvents(s, h)
  }

  /** The delivery announces an event, the connection hears it, and no handler before h throws. */
  ghost predicate Reaches(steps: seq<L.Step>, d: Delivery, h: L.Handler)
    requires LR.ValidRun(L.Init(), steps) && Along(steps, d, h)
  {
    d.note.EventAppended? && Heard(LR.StateAfter(L.Init(), steps, d.at), NOTIFICATION_CHANNEL) && !CutOff(d, h)
  }

  lemma DispatcherCalls(steps: seq<L.Step>, d: Delivery, h: L.Handler)
    requires LR.ValidRun(L.Init(), steps) && LS.AlwaysHeld(L.Init(), steps) && Along(steps, d, h)
    ensures Calls(d, h) == if Reaches(steps, d, h) then [d.note] else []
  {
    var s := LR.StateAfter(L.Init(), steps, d.at);
    LR.InitIsGood();
    LR.StateAfterIsGood(L.Init(), steps, d.at);
    StateAfterIsHeld(L.Init(), steps, d.at);
    DispatcherIsHeardWhereEventsFlow(s, h);
    DeliveryReachesExactlyItsHandlers(s, d, h);
  }

  /** Where events flow and nothing cuts h off, an event reaches h. */
  lemma FlowingEventReaches(steps: seq<L.Step>, d: Delivery, h: L.Handler)
    requires LR.ValidRun(L.Init(), steps) && LS.AlwaysHeld(L.Init(), steps) && Along(steps, d, h)
    requires LR.Good(LR.StateAfter(L.Init(), steps, d.at)) && EventsFlow(LR.StateAfter(L.Init(), steps, d.at))
    requires d.note.EventAppended? && !CutOff(d, h)
    ensures Reaches(steps, d, h)
  {
    StateAfterIsHeld(L.Init(), steps, d.at);
    DispatcherIsHeardWhereEventsFlow(LR.StateAfter(L.Init(), steps, d.at), h);
  }

  /** The notifications of the deliveries that reach h, in order. */
  ghost function Reaching(steps: seq<L.Step>, ds: seq<Delivery>, h: L.Handler): seq<S.Notify>
    requires LR.ValidRun(L.Init(), steps) && forall d :: d in ds ==> Along(steps, d, h)
  {
    if ds == [] then []
    else
      assert ds[0] in ds;
      (if Reaches(steps, ds[0], h) then [ds[0].note] else []) + Reaching(steps, ds[1..], h)
  }

  /** Along any run without eviction and before close, the dispatcher receives exactly the events that reach it. */
  lemma {:induction false} DispatcherReceivesExactly(steps: seq<L.Step>, ds: seq<Delivery>, h: L.Handler)
    requires LR.ValidRun(L.Init(), steps) && LS.AlwaysHeld(L.Init(), steps)
    requires forall d :: d in ds ==> Along(steps, d, h)
    ensures Received(ds, h) == Reaching(steps, ds, h)
    ensures forall n :: n in Received(ds, h) ==> n.EventAppended?
  {
    if ds != [] {
      assert ds[0] in ds;
      DispatcherCalls(steps, ds[0], h);
      DispatcherReceivesExactly(steps, ds[1..], h);
    }
  }

  function Notes(ds: seq<Delivery>): seq<S.Notify> {
    seq(|ds|, i requires 0 <= i < |ds| => ds[i].note)
  }

  lemma NotesFirst(ds: seq<Delivery>)
    requires ds != []
    ensures SW.EventIds(Notes(ds))
         == (if ds[0].note.EventAppended? then [ds[0].note.id] else []) + SW.EventIds(Notes(ds[1..]))
  {
    assert Notes(ds) == [ds[0].note] + Notes(ds[1..]);
    assert Notes(ds)[1..] == Notes(ds[1..]);
  }

  lemma {:induction false} AllEventsReach(steps: seq<L.Step>, ds: seq<Delivery>, h: L.Handler)
    requires LR.ValidRun(L.Init(), steps)
    requires forall d :: d in ds ==> Along(steps, d, h) && (d.note.EventAppended? ==> Reaches(steps, d, h))
    ensures SW.EventIds(Reaching(steps, ds, h)) == SW.EventIds(Notes(ds))
  {
    if ds != [] {
      assert ds[0] in ds;
      AllEventsReach(steps, ds[1..], h);
      NotesFirst(ds);
      var rest := Reaching(steps, ds[1..], h);
      if ds[0].note.EventAppended? {
        SW.EventIdsConcat([ds[0].note], rest);
      } else {
        assert [] + rest == rest;
      }
    }
  }

  /** What is asked where an event arrives: events flow, and no handler before h throws on it. */
  ghost predicate Unhindered(steps: seq<L.Step>, d: Delivery, h: L.Handler)
    requires LR.ValidRun(L.Init(), steps) && d.at <= |steps|
  {
    var s := LR.StateAfter(L.Init(), steps, d.at);
    LR.Good(s) && EventsFlow(s) && !CutOff(d, h)
  }

  /** The deliveries are those of a world, in order, along a run that never loses a registration. */
  ghost predicate Delivers(w: S.World, steps: seq<L.Step>, ds: seq<Delivery>, h: L.Handler) {
    && LR.ValidRun(L.Init(), steps) && LS.Undisturbed(L.Init(), steps)
    && (forall step :: step in steps ==> !step.Close?)
    && Notes(ds) == w.delivered
    && forall d :: d in ds ==> Along(steps, d, h) && (d.note.EventAppended? ==> Unhindered(steps, d, h))
  }

  lemma DispatcherHearsWhatIsWoken(w: S.World, steps: seq<L.Step>, ds: seq<Delivery>, h: L.Handler)
    requires SW.Woken(w) && Delivers(w, steps, ds, h)
    ensures SW.EventIds(Received(ds, h)) == SW.Announced(w.rows)
    ensures forall n :: n in Received(ds, h) ==> n.EventAppended?
  {
    LS.RegistrationsLastExactlyWithoutEviction(steps);
    DispatcherReceivesExactly(steps, ds, h);
    forall d | d in ds && d.note.EventAppended? ensures Reaches(steps, d, h) {
      FlowingEventReaches(steps, d, h);
    }
    AllEventsReach(steps, ds, h);
  }

  /**
   * Any nest of scopes, and any run of one listener without eviction and before close,
   * along which the notifications arrive. A dispatcher with a live subscribe is called
   * once for each durable event with a well-formed or absent run id, in commit order,
   * and never for an event that was rolled back, provided that where an event arrives
   * the channel is attended and not owed and no handler before the dispatcher throws.
   */
  lemma DispatcherHearsEachDurableEventOnce(w: S.World, work: S.Work, steps: seq<L.Step>, ds: seq<Delivery>,
        h: L.Handler)
    requires ST.Idle(w) && SW.Told(w) && Delivers(S.Exec(w, None, 0, work).0, steps, ds, h)
    ensures SW.EventIds(Received(ds, h)) == SW.Announced(S.Exec(w, None, 0, work).0.rows)
    ensures forall n :: n in Received(ds, h) ==> n.EventAppended?
  {
    ST.DurableExactlyWhenWoken(w, work);
    DispatcherHearsWhatIsWoken(S.Exec(w, None, 0, work).0, steps, ds, h);
  }

  /** The same for any number of callers whose steps interleave in any way, at every moment. */
  lemma DispatcherHearsAllCallers(s: SK.System, schedule: seq<nat>, steps: seq<L.Step>, ds: seq<Delivery>, h: L.Handler)
    requires SC.Good(s) && SC.Turns(s, schedule) && Delivers(SC.Interleave(s, schedule).world, steps, ds, h)
    ensures SW.EventIds(Received(ds, h)) == SW.Announced(SC.Interleave(s, schedule).world.rows)
    ensures forall n :: n in Received(ds, h) ==> n.EventAppended?
  {
    DispatcherHearsWhatIsWoken(SC.Interleave(s, schedule).world, steps, ds, h);
  }
}
