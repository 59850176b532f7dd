/** The listener over whole runs: connections, coverage of the registered channels, and close. */
module NotifyListenerTheorems {
  import opened Base
  import opened NotifyListener
  import opened NotifyListenerInvariants
  import opened NotifyListenerRegistry
  import opened NotifyListenerRefinement
  import opened NotifyListenerRuns

  // ---- connection conservation ----

  lemma ConnectionConservation(steps: seq<Step>)
    requires ValidRun(Init(), steps)
    ensures var s := Run(Init(), steps);
            && |s.conns| - s.releases == (if s.client.Some? then 1 else 0)
            && (forall k :: 0 <= k < |s.conns| ==>
                  && s.conns[k].releases <= 1
                  && (s.conns[k].releases == 0 <==> s.client == Some(k))
                  && (s.conns[k].attached <==> s.client == Some(k)))
            && (forall m, n :: 0 <= m < n < |s.connects| ==> !(s.connects[m].Active() && s.connects[n].Active()))
  {
    InitIsGood();
    RunKeepsGood(Init(), steps);
    assert Conserved(Run(Init(), steps));
  }

  // ---- listener refinement ----

  /** A registered subscribe that has not sent its LISTEN, or whose LISTEN was refused and is about to be undone. */
  ghost predicate Owing(s: State, c: Channel, i: CallId) {
    && i < |s.calls| && s.calls[i].channel == c && Current(s, i)
    && (s.calls[i].pc.AwaitConnect? || s.calls[i].pc.Ready? || s.calls[i].pc.Throwing?)
  }

  /**
   * In every reachable state with a live client k: each registered channel is listened
   * to once k's queue drains, or the re-LISTEN loop still owes it (or missed it when a
   * re-LISTEN was refused), or one of its subscribes does.
   */
  lemma ListenerRefinement(steps: seq<Step>, k: ConnId, c: Channel)
    requires ValidRun(Init(), steps)
    requires var s := Run(Init(), steps);
             s.client == Some(k) && k < |s.conns| && s.conns[k].alive && c in s.handlers
    ensures var s := Run(Init(), steps);
            && s.conns[k].owner < |s.connects|
            && (|| Drains(c, c in s.conns[k].listening, s.conns[k].queue, true)
                || c in Unvisited(s, k)
                || exists i :: Owing(s, c, i))
  {
    InitIsGood();
    RunKeepsGood(Init(), steps);
    RegisteredIsCovered(Run(Init(), steps), k, c);
  }

  lemma RegisteredIsCovered(s: State, k: ConnId, c: Channel)
    requires Good(s) && s.client == Some(k) && s.conns[k].alive && c in s.handlers
    ensures || Drains(c, c in s.conns[k].listening, s.conns[k].queue, true)
            || c in Unvisited(s, k)
            || exists i :: Owing(s, c, i)
  {
    var h :| h in s.sets[s.handlers[c]].members;
    assert Witnessed(s, s.handlers[c], h);
    var i: CallId :| Witness(s, s.handlers[c], h, i);
    assert s.calls[i].channel == c && Current(s, i);
    assert CallCovered(s, k, i);
    var on, q := c in s.conns[k].listening, s.conns[k].queue;
    if s.calls[i].pc == AwaitListen(k) {
      QueuedDrains(c, on, q, i);
    } else if s.calls[i].pc.Subscribed? || s.calls[i].pc.AwaitListen? {
      if Drains(c, on, q, false) {
        DrainsMonotone(c, on, on, q, false, true);
      }
    } else {
      assert Owing(s, c, i);
    }
  }

  // ---- what a live client hears ----

  /** A subscribe for c has finished, and its Set is the channel's. Other calls and channels may be busy. */
  ghost predicate Attended(s: State, c: Channel) {
    exists i :: Attends(s, c, i)
  }

  ghost predicate Attends(s: State, c: Channel, i: CallId) {
    i < |s.calls| && s.calls[i].channel == c && s.calls[i].pc.Subscribed? && Current(s, i)
  }

  /** k's loop has still to re-LISTEN c or waits for the answer, or it left c unheard when it threw. */
  predicate Owed(s: State, k: ConnId, c: Channel)
    requires k < |s.conns| && s.conns[k].owner < |s.connects|
  {
    var loop := s.connects[s.conns[k].owner];
    c in Unvisited(s, k) || (loop.Looping? && loop.sent == Some(c))
  }

  lemma {:induction false} NoRelistenDrains(c: Channel, on: bool, q: seq<Command>)
    requires Drains(c, on, q, false)
    requires forall cmd :: cmd in q ==> !(cmd.Listen? && cmd.channel == c && cmd.from.Loop?)
    ensures on
    decreases q
  {
    if q != [] {
      assert q[0] in q;
      NoRelistenDrains(c, Effect(c, on, q[0], false), q[1..]);
    }
  }

  /** A queued re-LISTEN is the one its connection's loop waits for. */
  lemma QueuedRelistenIsSent(s: State, k: ConnId, cmd: Command)
    requires Sound(s) && k < |s.conns| && cmd in s.conns[k].queue && cmd.Listen? && cmd.from.Loop?
    ensures Owed(s, k, cmd.channel)
  {
    var j :| 0 <= j < |s.conns[k].queue| && s.conns[k].queue[j] == cmd;
    assert Awaited(s, k, s.conns[k].queue[j]);
    assert s.connects[cmd.from.connect].Held() == Some(k);
  }

  /** A live client listens to every attended channel its loop does not owe, whatever else is in progress. */
  lemma AttendedIsHeardUnlessOwed(s: State, k: ConnId, c: Channel)
    requires Good(s) && s.client == Some(k) && s.conns[k].alive && Attended(s, c)
    ensures c in s.conns[k].listening || Owed(s, k, c)
  {
    var i :| Attends(s, c, i);
    assert CallCovered(s, k, i);
    if c !in s.conns[k].listening && c !in Unvisited(s, k) {
      if cmd :| cmd in s.conns[k].queue && cmd.Listen? && cmd.channel == c && cmd.from.Loop? {
        QueuedRelistenIsSent(s, k, cmd);
      } else {
        NoRelistenDrains(c, false, s.conns[k].queue);
      }
    }
  }

  /** Once nothing is in flight and no re-LISTEN was refused, every registered channel is listened to. */
  lemma QuietListenerHearsEverything(steps: seq<Step>, k: ConnId)
    requires ValidRun(Init(), steps)
    requires var s := Run(Init(), steps);
             && s.client == Some(k) && k < |s.conns| && s.conns[k].alive && s.conns[k].queue == []
             && s.conns[k].owner < |s.connects| && s.connects[s.conns[k].owner].Resolved?
             && forall i :: 0 <= i < |s.calls| ==> s.calls[i].pc.Subscribed? || !s.calls[i].pc.Live()
    ensures var s := Run(Init(), steps); forall c :: c in s.handlers ==> c in s.conns[k].listening
  {
    var s := Run(Init(), steps);
    forall c | c in s.handlers
      ensures c in s.conns[k].listening
    {
      ListenerRefinement(steps, k, c);
    }
  }

  // ---- close ----

  /** No connect() waits for the pool and there is no client: the listener holds nothing. */
  predicate Finished(s: State) {
    s.closed && s.client.None? && forall n :: 0 <= n < |s.connects| ==> !s.connects[n].AwaitPool?
  }

  /** Only an answer of the pool installs a client, and only a subscribe or a drop asks the pool. */
  lemma NothingPending(s: State, t: State)
    requires Finished(s) && t.closed && t.client.None? && |t.connects| == |s.connects|
    requires forall n :: 0 <= n < |s.connects| && t.connects[n].AwaitPool? ==> s.connects[n].AwaitPool?
    ensures Finished(t)
  {
  }

  lemma FinishedSubscribe(s: State, c: Channel, h: Handler)
    requires Typed(s) && Finished(s)
    ensures Finished(AfterSubscribe(s, c, h))
  {
    NothingPending(s, AfterSubscribe(s, c, h));
  }

  lemma FinishedEnd(s: State, step: Step)
    requires Typed(s) && Finished(s) && Enabled(s, step) && (step.Catch? || step.Unsubscribe? || step.Close?)
    ensures Finished(Next(s, step))
  {
    NothingPending(s, Next(s, step));
  }

  lemma FinishedHead(s: State, step: Step)
    requires Typed(s) && Finished(s) && Enabled(s, step) && (step.Execute? || step.Fail?)
    ensures Finished(Next(s, step))
  {
    NothingPending(s, Next(s, step));
  }

  lemma FinishedIsFinal(s: State, step: Step)
    requires Typed(s) && Finished(s) && Enabled(s, step)
    ensures Finished(Next(s, step))
  {
    if step.Subscribe? {
      FinishedSubscribe(s, step.channel, step.handler);
    } else if step.Catch? || step.Unsubscribe? || step.Close? {
      FinishedEnd(s, step);
    } else if step.Execute? || step.Fail? {
      FinishedHead(s, step);
    } else {
      NothingPending(s, Next(s, step));
    }
  }

  lemma {:induction false} FinishedRun(s: State, steps: seq<Step>)
    requires Good(s) && Finished(s) && ValidRun(s, steps)
    ensures Finished(Run(s, steps))
    decreases steps
  {
    if steps != [] {
      FinishedIsFinal(s, steps[0]);
      StepKeepsRefines(s, steps[0]);
      FinishedRun(Next(s, steps[0]), steps[1..]);
    }
  }

  /**
   * close() leaves a client behind on some run exactly when it races a connect() that
   * waits for the pool: that connect() installs its client on the closed listener.
   */
  lemma CloseLeaksExactlyAPendingConnect(s: State)
    requires Good(s)
    ensures Typed(AfterClose(s))
    ensures (exists steps :: ValidRun(AfterClose(s), steps) && Run(AfterClose(s), steps).client.Some?)
            <==> exists n :: 0 <= n < |s.connects| && s.connects[n].AwaitPool?
  {
    StepKeepsRefines(s, Close);
    var t := AfterClose(s);
    if n :| 0 <= n < |s.connects| && s.connects[n].AwaitPool? {
      PendingInstalls(t, n);
    } else {
      forall steps | ValidRun(t, steps)
        ensures Run(t, steps).client.None?
      {
        FinishedRun(t, steps);
      }
    }
  }

  lemma PendingInstalls(s: State, n: ConnectId)
    requires Typed(s) && n < |s.connects| && s.connects[n].AwaitPool?
    ensures exists steps :: ValidRun(s, steps) && Run(s, steps).client.Some?
  {
    assert ValidRun(s, []) && Run(s, []) == s;
    RunSnoc(s, [], PoolOk(n, {}));
    assert Run(s, [] + [PoolOk(n, {})]).client.Some?;
  }
}
