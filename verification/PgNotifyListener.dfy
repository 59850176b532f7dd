/**
 * The listener as the source writes it: a class whose fields its methods update in
 * place. Each method is one stretch of code between two awaits, and does to the
 * fields exactly what the corresponding step does to the state.
 */
module PgListener {
  import opened Base
  import opened NotifyListener
  import opened NotifyListenerReconnect
  import opened NotifyListenerRefinement
  import opened NotifyListenerRuns

  /** What one notification wakes: the handlers in insertion order, up to and including the first that throws. */
  function Woken(order: seq<Handler>, throwing: set<Handler>): seq<Handler> {
    if order == [] then []
    else if order[0] in throwing then [order[0]]
    else [order[0]] + Woken(order[1..], throwing)
  }

  /** A handler is woken exactly when no handler before it threw; then it is woken once. */
  lemma {:induction false} WokenExactly(order: seq<Handler>, throwing: set<Handler>, k: nat)
    requires NoDuplicates(order) && k < |order|
    ensures NoDuplicates(Woken(order, throwing)) && Woken(order, throwing) <= order
    ensures forall h :: h in Woken(order, throwing) ==> h in order
    ensures order[k] in Woken(order, throwing) <==> forall j :: 0 <= j < k ==> order[j] !in throwing
  {
    var rest := order[1..];
    assert NoDuplicates(rest);
    assert order[0] !in rest;
    if order[0] !in throwing && rest != [] {
      WokenExactly(rest, throwing, if k > 0 then k - 1 else 0);
      if k > 0 {
        assert order[k] == rest[k - 1];
        assert order[k] != order[0];
        assert (forall j :: 0 <= j < k ==> order[j] !in throwing) <==>
            (forall j :: 0 <= j < k - 1 ==> rest[j] !in throwing) by {
          if forall j :: 0 <= j < k ==> order[j] !in throwing {
            forall j | 0 <= j < k - 1 ensures rest[j] !in throwing { assert rest[j] == order[j + 1]; }
          }
          if forall j :: 0 <= j < k - 1 ==> rest[j] !in throwing {
            forall j | 0 <= j < k ensures order[j] !in throwing { assert j == 0 || order[j] == rest[j - 1]; }
          }
        }
      }
    } else if k > 0 {
      assert order[k] != order[0];
    }
  }

  lemma AllWokenExactly(order: seq<Handler>, throwing: set<Handler>)
    requires NoDuplicates(order)
    ensures NoDuplicates(Woken(order, throwing)) && Woken(order, throwing) <= order
    ensures forall k :: 0 <= k < |order| ==>
              (order[k] in Woken(order, throwing) <==> forall j :: 0 <= j < k ==> order[j] !in throwing)
  {
    if order != [] { WokenExactly(order, throwing, 0); }
    forall k | 0 <= k < |order|
      ensures order[k] in Woken(order, throwing) <==> forall j :: 0 <= j < k ==> order[j] !in throwing
    {
      WokenExactly(order, throwing, k);
    }
  }

  /** Only registered handlers are woken; when none of them throws, all of them are. */
  lemma WokenAreRegistered(order: seq<Handler>, throwing: set<Handler>, registered: set<Handler>)
    requires NoDuplicates(order) && forall h :: h in order <==> h in registered
    ensures NoDuplicates(Woken(order, throwing)) && Woken(order, throwing) <= order
    ensures forall h :: h in Woken(order, throwing) ==> h in registered
    ensures registered !! throwing ==> forall h :: h in registered ==> h in Woken(order, throwing)
  {
    AllWokenExactly(order, throwing);
    if registered !! throwing {
      forall h | h in registered ensures h in Woken(order, throwing) {
        var k :| 0 <= k < |order| && order[k] == h;
        assert forall j :: 0 <= j < k ==> order[j] in registered;
      }
    }
  }

  class PgNotifyListener {
    var client: Option<ConnId>
    var handlers: map<Channel, SetId>
    var keys: seq<Channel>
    var connecting: Option<ConnectId>
    var closed: bool
    // What the methods create and call into: Set objects, pool checkouts, promises.
    var sets: seq<HandlerSet>
    var conns: seq<Conn>
    var connects: seq<Connect>
    var calls: seq<Call>
    var releases: nat

    ghost function View(): State
      reads this
    {
      State(client, handlers, keys, connecting, closed, sets, conns, connects, calls, releases)
    }

    ghost predicate Valid()
      reads this
    {
      Good(View())
    }

    constructor ()
      ensures Valid() && View() == Init()
    {
      client, handlers, keys, connecting, closed := None, map[], [], None, false;
      sets, conns, connects, calls, releases := [], [], [], [], 0;
    }

    method Subscribe(channel: Channel, handler: Handler) returns (call: CallId)
      requires Valid()
      modifies this
      ensures Valid() && call == old(|calls|)
      ensures View() == AfterSubscribe(old(View()), channel, handler)
    {
      call := |calls|;
      if channel !in handlers {
        AddChannel(channel);
      }
      var a := handlers[channel];
      sets := sets[a := sets[a].(members := sets[a].members + {handler})];
      var pc := EnsureConnected();
      calls := calls + [Call(channel, handler, a, pc)];
      assert View() == AfterSubscribe(old(View()), channel, handler);
      StepKeepsRefines(old(View()), NotifyListener.Step.Subscribe(channel, handler));
    }

    method AddChannel(channel: Channel)
      modifies this
      ensures View() == AddKey(old(View()), channel)
    {
      handlers := handlers[channel := |sets|];
      keys := keys + [channel];
      sets := sets + [HandlerSet(channel, {})];
      connects := seq(|connects|, n requires 0 <= n < |connects| reads this => AddPending(connects[n], channel));
    }

    /** Starts or joins the one connect() in flight, unless there is a client or the listener is closed. */
    method EnsureConnected() returns (pc: Pc)
      modifies this
      ensures closed == old(closed) && client == old(client)
      ensures View() == if closed || client.Some? then old(View()) else StartConnect(old(View()))
      ensures pc == if closed || client.Some? then Ready else AwaitConnect(View().connecting.value)
    {
      if closed || client.Some? {
        return Ready;
      }
      if connecting.None? {
        connecting := Some(|connects|);
        connects := connects + [AwaitPool];
      }
      pc := AwaitConnect(connecting.value);
    }

    method Send(k: ConnId, cmd: Command)
      requires k < |conns|
      modifies this
      ensures View() == Enqueue(old(View()), k, cmd)
    {
      conns := conns[k := conns[k].(queue := conns[k].queue + [cmd])];
    }

    method SendListen(call: CallId)
      requires Valid() && Enabled(View(), NotifyListener.Step.SendListen(call))
      modifies this
      ensures Valid() && View() == AfterSendListen(old(View()), call)
    {
      StepKeepsRefines(View(), NotifyListener.Step.SendListen(call));
      if client.Some? {
        Send(client.value, Listen(calls[call].channel, Subscriber(call)));
        calls := calls[call := calls[call].(pc := AwaitListen(client.value))];
      } else {
        calls := calls[call := calls[call].(pc := Subscribed)];
      }
    }

    method DeleteChannel(channel: Channel)
      modifies this
      ensures View() == DeleteKey(old(View()), channel)
    {
      handlers := handlers - {channel};
      keys := Without(keys, channel);
      connects := seq(|connects|, n requires 0 <= n < |connects| reads this => DropPending(connects[n], channel));
    }

    /** The catch block of subscribe. */
    method SubscribeFailed(call: CallId)
      requires Valid() && Enabled(View(), Catch(call))
      modifies this
      ensures Valid() && View() == AfterCatch(old(View()), call)
    {
      StepKeepsRefines(View(), Catch(call));
      var a := calls[call].setId;
      sets := sets[a := sets[a].(members := sets[a].members - {calls[call].handler})];
      if sets[a].members == {} {
        DeleteChannel(calls[call].channel);
      }
      calls := calls[call := calls[call].(pc := Failed)];
    }

    /** The closure that subscribe returned. */
    method Unsubscribe(call: CallId)
      requires Valid() && Enabled(View(), NotifyListener.Step.Unsubscribe(call))
      modifies this
      ensures Valid() && View() == AfterUnsubscribe(old(View()), call)
    {
      var channel := calls[call].channel;
      if channel in handlers {
        var a := handlers[channel];
        sets := sets[a := sets[a].(members := sets[a].members - {calls[call].handler})];
        if sets[a].members == {} {
          DeleteChannel(channel);
          if client.Some? {
            Send(client.value, Unlisten(channel));
          }
        }
      }
      calls := calls[call := calls[call].(pc := Unsubscribed)];
      assert View() == AfterUnsubscribe(old(View()), call);
      StepKeepsRefines(old(View()), NotifyListener.Step.Unsubscribe(call));
    }

    method Release(k: ConnId)
      requires k < |conns|
      modifies this
      ensures View() == Released(old(View()), k)
    {
      conns := conns[k := conns[k].(attached := false, releases := conns[k].releases + 1)];
      releases := releases + 1;
    }

    method Shut()
      modifies this
      ensures var s := old(View());
              View() == s.(closed := true, handlers := map[], keys := [], client := None,
                connects := seq(|s.connects|, n requires 0 <= n < |s.connects| => ClearPending(s.connects[n])))
    {
      closed := true;
      handlers, keys := map[], [];
      client := None;
      connects := seq(|connects|, n requires 0 <= n < |connects| reads this => ClearPending(connects[n]));
    }

    method Close()
      requires Valid()
      modifies this
      ensures Valid() && View() == AfterClose(old(View()))
    {
      StepKeepsRefines(View(), NotifyListener.Step.Close);
      var held := client;
      Shut();
      if held.Some? {
        Release(held.value);
      }
    }

    /** connect() from the pool's answer to the head of the re-LISTEN loop. */
    method Connected(n: ConnectId, leftover: set<Channel>)
      requires Valid() && Enabled(View(), PoolOk(n, leftover))
      modifies this
      ensures Valid() && View() == AfterPoolOk(old(View()), n, leftover)
    {
      StepKeepsRefines(View(), PoolOk(n, leftover));
      var k := |conns|;
      conns := conns + [Conn(n, [], leftover, true, true, 0)];
      client := Some(k);
      connects := connects[n := Looping(k, keys, None)];
    }

    /** One turn of the re-LISTEN loop. */
    method Relisten(n: ConnectId)
      requires Valid() && Enabled(View(), SendRelisten(n))
      modifies this
      ensures Valid() && View() == AfterSendRelisten(old(View()), n)
    {
      StepKeepsRefines(View(), SendRelisten(n));
      var channel := connects[n].pending[0];
      Send(connects[n].conn, Listen(channel, Loop(n)));
      connects := connects[n := connects[n].(pending := connects[n].pending[1..], sent := Some(channel))];
    }

    /** The `finally` of ensureConnected: connect() is over and its awaiting subscribes resume. */
    method ConnectSettled(n: ConnectId, phase: Connect, resumed: Pc)
      requires n < |connects|
      modifies this
      ensures View() == AfterConnectEnds(old(View()), n, phase, resumed)
    {
      connecting := None;
      connects := connects[n := phase];
      calls := Resume(calls, n, resumed);
    }

    /** connect() when the pool refuses, or when the re-LISTEN loop has visited every key. */
    method ConnectOver(n: ConnectId)
      requires Valid() && (Enabled(View(), PoolFail(n)) || Enabled(View(), FinishLoop(n)))
      modifies this
      ensures Valid()
      ensures View() == if old(connects)[n].AwaitPool? then AfterConnectEnds(old(View()), n, PoolFailed, Throwing)
                        else AfterConnectEnds(old(View()), n, Resolved(old(connects)[n].conn), Ready)
    {
      if connects[n].AwaitPool? {
        StepKeepsRefines(View(), PoolFail(n));
        ConnectSettled(n, PoolFailed, Throwing);
      } else {
        StepKeepsRefines(View(), FinishLoop(n));
        ConnectSettled(n, Resolved(connects[n].conn), Ready);
      }
    }

    /** The handler of the client's `error` event: reconnect(). */
    method OnError(k: ConnId)
      requires Valid() && Enabled(View(), ErrorEvent(k))
      modifies this
      ensures Valid() && View() == AfterErrorEvent(old(View()), k)
      ensures old(closed) ==> View() == old(View())
      ensures handlers == old(handlers) && keys == old(keys) && sets == old(sets) && calls == old(calls)
      ensures !old(closed) ==>
                && client.None? && k < |conns| && !conns[k].attached && conns[k].releases == 1
                && (handlers != map[] ==>
                      connecting.Some? && connecting.value < |connects| && connects[connecting.value].Active())
                && (handlers == map[] || old(connecting).Some? ==>
                      connects == old(connects) && connecting == old(connecting))
    {
      if !closed {
        ErrorEventReconnects(View(), k);
      }
      StepKeepsRefines(View(), ErrorEvent(k));
      if closed {
        return;
      }
      if client == Some(k) {
        client := None;
      }
      Release(k);
      if keys != [] {
        var _ := EnsureConnected();
      }
    }

    /** The handler of the client's `notification` event; `order` is the Set's insertion order. */
    method OnNotification(channel: Channel, order: seq<Handler>, throwing: set<Handler>) returns (woken: seq<Handler>)
      requires Valid() && NoDuplicates(order)
      requires forall h :: h in order <==> h in RegisteredFor(View(), channel)
      ensures woken == Woken(order, throwing) && NoDuplicates(woken) && woken <= order
      ensures forall h :: h in woken ==> h in RegisteredFor(View(), channel)
      ensures RegisteredFor(View(), channel) !! throwing ==>
                forall h :: h in RegisteredFor(View(), channel) ==> h in woken
    {
      woken := [];
      var i := 0;
      var threw := false;
      while i < |order| && !threw
        invariant i <= |order|
        invariant threw ==> woken == Woken(order, throwing)
        invariant !threw ==> woken + Woken(order[i..], throwing) == Woken(order, throwing)
        decreases |order| - i, !threw
      {
        woken := woken + [order[i]];
        threw := order[i] in throwing;
        i := i + 1;
      }
      WokenAreRegistered(order, throwing, RegisteredFor(View(), channel));
    }
  }
}
