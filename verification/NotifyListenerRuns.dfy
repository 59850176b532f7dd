/** Runs of the listener: any interleaving of enabled steps, from a fresh listener. */
module NotifyListenerRuns {
  import opened NotifyListener
  import opened NotifyListenerInvariants
  import opened NotifyListenerRegistry
  import opened NotifyListenerRefinement

  // ---- runs ----

  ghost predicate Good(s: State) {
    Sound(s) && Refines(s)
  }

  /** The run is possible: each step is enabled where it is taken. */
  ghost predicate ValidRun(s: State, steps: seq<Step>)
    decreases steps
  {
    steps == [] || (Typed(s) && Enabled(s, steps[0]) && ValidRun(Next(s, steps[0]), steps[1..]))
  }

  ghost function Run(s: State, steps: seq<Step>): State
    requires ValidRun(s, steps)
    decreases steps
  {
    if steps == [] then s else Run(Next(s, steps[0]), steps[1..])
  }

  lemma {:induction false} RunKeepsGood(s: State, steps: seq<Step>)
    requires Good(s) && ValidRun(s, steps)
    ensures Good(Run(s, steps))
    decreases steps
  {
    if steps != [] {
      StepKeepsRefines(s, steps[0]);
      RunKeepsGood(Next(s, steps[0]), steps[1..]);
    }
  }

  ghost predicate Reachable(s: State) {
    exists steps :: ValidRun(Init(), steps) && Run(Init(), steps) == s
  }

  lemma {:induction false} RunSnoc(s: State, steps: seq<Step>, step: Step)
    requires ValidRun(s, steps) && Typed(Run(s, steps)) && Enabled(Run(s, steps), step)
    ensures ValidRun(s, steps + [step]) && Run(s, steps + [step]) == Next(Run(s, steps), step)
    decreases steps
  {
    if steps == [] {
      assert [step][1..] == [];
      assert steps + [step] == [step];
    } else {
      assert (steps + [step])[1..] == steps[1..] + [step];
      RunSnoc(Next(s, steps[0]), steps[1..], step);
    }
  }

  /** The state after n steps of the run. */
  ghost function StateAfter(s: State, steps: seq<Step>, n: nat): State
    requires ValidRun(s, steps) && n <= |steps|
    decreases n
  {
    if n == 0 then s else StateAfter(Next(s, steps[0]), steps[1..], n - 1)
  }

  lemma {:induction false} StateAfterIsGood(s: State, steps: seq<Step>, n: nat)
    requires Good(s) && ValidRun(s, steps) && n <= |steps|
    ensures Good(StateAfter(s, steps, n))
    decreases n
  {
    if n > 0 {
      StepKeepsRefines(s, steps[0]);
      StateAfterIsGood(Next(s, steps[0]), steps[1..], n - 1);
    }
  }

  lemma InitIsGood()
    ensures Good(Init())
  {
    assert Accounted(Init());
  }

  lemma ReachableIsGood(s: State)
    requires Reachable(s)
    ensures Typed(s) && Good(s)
  {
    InitIsGood();
    var steps :| ValidRun(Init(), steps) && Run(Init(), steps) == s;
    RunKeepsGood(Init(), steps);
  }

  /** Reachability is closed under every enabled step, and reachable states are good. */
  lemma ReachableStep(s: State, step: Step)
    requires Reachable(s) && Enabled(s, step)
    ensures Typed(s) && Reachable(Next(s, step)) && Good(Next(s, step))
  {
    ReachableIsGood(s);
    assert Reachable(Next(s, step)) by {
      var steps :| ValidRun(Init(), steps) && Run(Init(), steps) == s;
      RunSnoc(Init(), steps, step);
      assert ValidRun(Init(), steps + [step]);
    }
    ReachableIsGood(Next(s, step));
  }

  lemma InitReachable()
    ensures Reachable(Init()) && Good(Init())
  {
    InitIsGood();
    assert ValidRun(Init(), []) && Run(Init(), []) == Init();
  }

  // ---- what a caller sees of the registry ----

  function RegisteredFor(s: State, c: Channel): set<Handler>
    requires Typed(s)
  {
    if c in s.handlers then s.sets[s.handlers[c]].members else {}
  }
}
