/** A caller whose steps nobody interrupts does exactly what the interpreter of scopes says. */
module OrgScopeTaskRefinement {
  import opened Base
  import opened Text
  import opened SystemPool
  import opened OrgScope
  import opened OrgScopeCommits
  import opened OrgScopeTasks
  import opened OrgScopeTaskInvariants
  import opened OrgScopeTaskTheorems

  // ---- steps in a row ----

  /** The world as one task finds it, and the task. */
  type Turn = (World, Task)

  /** All connections that the task names exist. */
  predicate Fits(p: Turn) {
    InRange(p.0, p.1)
  }

  ghost predicate StepTo(p: Turn, q: Turn) {
    Fits(p) && TaskStep(p.0, p.1) == q
  }

  /** Each turn of the trace follows from the one before by a step of the task. */
  ghost predicate IsTrace(trace: seq<Turn>, p: Turn, q: Turn) {
    && trace != [] && trace[0] == p && trace[|trace| - 1] == q
    && forall i, j {:trigger StepTo(trace[i], trace[j])} ::
         0 <= i < |trace| && 0 <= j < |trace| && j == i + 1 ==> StepTo(trace[i], trace[j])
  }

  /** The task gets from p to q by steps of its own, and q names existing connections only. */
  ghost predicate Reaches(p: Turn, q: Turn) {
    Fits(q) && exists trace :: IsTrace(trace, p, q)
  }

  lemma ReachesByOne(p: Turn, q: Turn)
    requires Fits(p) && StepTo(p, q) && Fits(q)
    ensures Reaches(p, q)
  {
    assert IsTrace([p, q], p, q);
  }

  lemma Stepped(p: Turn)
    requires Fits(p) && Fits(TaskStep(p.0, p.1))
    ensures Reaches(p, TaskStep(p.0, p.1))
  {
    ReachesByOne(p, TaskStep(p.0, p.1));
  }

  lemma ReachesTwice(p: Turn, q: Turn, r: Turn)
    requires Reaches(p, q) && Reaches(q, r)
    ensures Reaches(p, r)
  {
    var a :| IsTrace(a, p, q);
    var b :| IsTrace(b, q, r);
    var c := a + b[1..];
    forall i, j | 0 <= i < |c| && 0 <= j < |c| && j == i + 1
      ensures StepTo(c[i], c[j])
    {
      if j < |a| {
        assert StepTo(a[i], a[j]);
      } else {
        assert StepTo(b[i + 1 - |a|], b[j + 1 - |a|]);
      }
    }
    assert IsTrace(c, p, r);
  }

  // ---- the stack under its innermost scope ----

  lemma {:induction false} StoreTwice(stack: seq<Frame>, a: seq<Row>, b: seq<Row>)
    ensures Store(Store(stack, a), b) == Store(stack, a + b)
  {
    if stack != [] {
      var s1 := Store(stack, a);
      if stack[0].Scope? {
        assert (stack[0].stored + a) + b == stack[0].stored + (a + b);
        assert s1[1..] == stack[1..];
      } else {
        assert s1[1..] == Store(stack[1..], a);
        StoreTwice(stack[1..], a, b);
      }
    }
  }

  lemma StoreUnder(f: Frame, stack: seq<Frame>, rows: seq<Row>)
    requires !f.Scope?
    ensures Store([f] + stack, rows) == [f] + Store(stack, rows)
    ensures AmbientOf([f] + stack) == AmbientOf(stack) && DepthOf([f] + stack) == DepthOf(stack)
    ensures ScopeClients([f] + stack) == ScopeClients(stack)
  {
    assert ([f] + stack)[1..] == stack;
  }

  predicate Ranged(w: World, stack: seq<Frame>) {
    AmbientOf(stack).Some? ==> AmbientOf(stack).value.client < |w.clients|
  }

  // ---- one statement ----

  /** The task has returned, and the scope it is in has stored these rows. */
  function Back(w: World, out: Outcome, stack: seq<Frame>, rows: seq<Row>): Turn {
    (w, Task(Returned(out), Store(stack, rows)))
  }

  /** From the two notifications of an append to its return. */
  lemma WakeAlone(w: World, stack: seq<Frame>, id: EventId, run: Option<string>)
    requires Fits((w, Task(Waking(id, run), stack)))
    ensures Ranged(w, stack) && AmbientOf(stack).Some?
    ensures var (w', out) := WakeListeners(w, AmbientOf(stack).value.client, id, run);
            Reaches((w, Task(Waking(id, run), stack)), (w', Task(Returned(out), stack)))
  {
    AmbientIsAScope(stack);
    var p := (w, Task(Waking(id, run), stack));
    Stepped(p);
    if run.Some? && SafeId(run.value) {
      var (w1, woken) := SendNotify(w, AmbientOf(stack).value.client, RunActivity(run.value));
      if woken == Done {
        var q := (w1, Task(Announcing(id), stack));
        assert TaskStep(p.0, p.1) == q;
        AnnounceAlone(w1, stack, id);
        var (w2, out) := SendNotify(w1, AmbientOf(stack).value.client, EventAppended(id));
        ReachesTwice(p, q, (w2, Task(Returned(out), stack)));
      }
    }
  }

  lemma AnnounceAlone(w: World, stack: seq<Frame>, id: EventId)
    requires Fits((w, Task(Announcing(id), stack)))
    ensures Ranged(w, stack) && AmbientOf(stack).Some?
    ensures var (w', out) := SendNotify(w, AmbientOf(stack).value.client, EventAppended(id));
            Reaches((w, Task(Announcing(id), stack)), (w', Task(Returned(out), stack)))
  {
    AmbientIsAScope(stack);
    Stepped((w, Task(Announcing(id), stack)));
  }

  lemma AppendAlone(w: World, stack: seq<Frame>, input: EventInput)
    requires Fits((w, Task(Running(Append(input)), stack))) && Ranged(w, stack)
    ensures Reaches((w, Task(Running(Append(input)), stack)), Ended(w, stack, Append(input)))
  {
    var p := (w, Task(Running(Append(input)), stack));
    StoreNothing(stack);
    StoreKeeps(stack, [Event(w.nextId, input.org, input.run)]);
    Stepped(p);
    if AmbientOf(stack).Some? && !Blank(input.org) && input.payloadOk {
      var k, w0 := AmbientOf(stack).value.client, Look(w, AmbientOf(stack).value, DepthOf(stack));
      var (w1, out) := InsertEvent(w0, k, input.org, input.run);
      if out == Done {
        var stored := Store(stack, [Event(w.nextId, input.org, input.run)]);
        var q := (w1, Task(Waking(w.nextId, input.run), stored));
        assert TaskStep(p.0, p.1) == q;
        WakeAlone(w1, stored, w.nextId, input.run);
        var (w2, out') := WakeListeners(w1, k, w.nextId, input.run);
        ReachesTwice(p, q, (w2, Task(Returned(out'), stored)));
      }
    }
  }

  /** The other statements take one step. */
  lemma StatementAlone(w: World, stack: seq<Frame>, work: Work)
    requires work.Skip? || work.Throw? || work.Insert?
    requires Fits((w, Task(Running(work), stack))) && Ranged(w, stack)
    ensures Reaches((w, Task(Running(work), stack)), Ended(w, stack, work))
  {
    StoreNothing(stack);
    if work.Insert? {
      StoreKeeps(stack, [Other(work.tag, work.org)]);
    }
    Stepped((w, Task(Running(work), stack)));
  }

  // ---- two pieces of work ----

  /** A sequence and a catch differ in the outcome on which the second piece runs. */
  function Both(first: Work, second: Work, on: Outcome): Work {
    if on == Done then Seq(first, second) else Catch(first, second)
  }

  function Below(second: Work, on: Outcome): Frame {
    if on == Done then Then(second) else Handler(second)
  }

  lemma SeqStart(w: World, stack: seq<Frame>, first: Work, second: Work)
    requires Fits((w, Task(Running(Seq(first, second)), stack)))
    ensures Reaches((w, Task(Running(Seq(first, second)), stack)), (w, Task(Running(first), [Then(second)] + stack)))
  {
    StoreUnder(Then(second), stack, []);
    Stepped((w, Task(Running(Seq(first, second)), stack)));
  }

  lemma CatchStart(w: World, stack: seq<Frame>, first: Work, second: Work)
    requires Fits((w, Task(Running(Catch(first, second)), stack)))
    ensures Reaches((w, Task(Running(Catch(first, second)), stack)),
                    (w, Task(Running(first), [Handler(second)] + stack)))
  {
    StoreUnder(Handler(second), stack, []);
    Stepped((w, Task(Running(Catch(first, second)), stack)));
  }

  lemma BothResume(w: World, stack: seq<Frame>, out: Outcome, second: Work, on: Outcome)
    requires Fits((w, Task(Returned(out), [Below(second, on)] + stack)))
    ensures var q := (w, Task(if out == on then Running(second) else Returned(out), stack));
            Fits(q) && Reaches((w, Task(Returned(out), [Below(second, on)] + stack)), q)
  {
    assert ([Below(second, on)] + stack)[1..] == stack;
    StoreUnder(Below(second, on), stack, []);
    Stepped((w, Task(Returned(out), [Below(second, on)] + stack)));
  }

  // ---- a scope of its own ----

  lemma ReleaseAlone(w: World, k: ClientId, out: Outcome, stack: seq<Frame>)
    requires Fits((w, Task(Releasing(k, out), stack)))
    ensures k < |w.clients| && Reaches((w, Task(Releasing(k, out), stack)), (Release(w, k), Task(Returned(out), stack)))
  {
    Stepped((w, Task(Releasing(k, out), stack)));
  }

  lemma RollbackAlone(w: World, k: ClientId, stack: seq<Frame>)
    requires Fits((w, Task(RollingBack(k), stack)))
    ensures k < |w.clients|
    ensures Reaches((w, Task(RollingBack(k), stack)), (Release(Rollback(w, k), k), Task(Returned(Threw), stack)))
  {
    var p, q := (w, Task(RollingBack(k), stack)), (Rollback(w, k), Task(Releasing(k, Threw), stack));
    ReachesByOne(p, q);
    ReleaseAlone(q.0, k, Threw, stack);
    ReachesTwice(p, q, (Release(q.0, k), Task(Returned(Threw), stack)));
  }

  /** The new scope in front of the stack, or the return. */
  function Entered(w: World, got: Option<ClientId>, stack: seq<Frame>, pool: Pool, org: Option<Org>, body: Work): Turn
    requires got.Some? ==> got.value < |w.clients|
  {
    if got.None? then (w, Task(Returned(Threw), stack))
    else (w, Task(Running(body), [Scope(Ambient(got.value, pool, org), [], w.clients[got.value].refused)] + stack))
  }

  lemma SetLocalAlone(w: World, k: ClientId, stack: seq<Frame>, pool: Pool, org: Option<Org>, body: Work)
    requires Fits((w, Task(Setting(k, pool, org, body), stack)))
    ensures k < |w.clients|
    ensures var (w', out) := SetLocal(w, k, org);
            Reaches((w, Task(Setting(k, pool, org, body), stack)),
                    if out == Done then Entered(w', Some(k), stack, pool, org, body)
                    else Entered(Release(Rollback(w', k), k), None, stack, pool, org, body))
  {
    var p := (w, Task(Setting(k, pool, org, body), stack));
    var t' := TaskStep(p.0, p.1).1;
    assert t'.control.Running? ==> t'.stack[1..] == stack && ScopeClients(t'.stack) == [k] + ScopeClients(stack);
    Stepped(p);
    var (w', out) := SetLocal(w, k, org);
    if out == Threw {
      var q := (w', Task(RollingBack(k), stack));
      assert TaskStep(p.0, p.1) == q;
      RollbackAlone(w', k, stack);
      ReachesTwice(p, q, Entered(Release(Rollback(w', k), k), None, stack, pool, org, body));
    }
  }

  lemma BeginAlone(w: World, k: ClientId, stack: seq<Frame>, pool: Pool, org: Option<Org>, body: Work)
    requires Fits((w, Task(Beginning(k, pool, org, body), stack)))
    ensures k < |w.clients|
    ensures var (w', begun) := Begin(w, k);
            var p := (w, Task(Beginning(k, pool, org, body), stack));
            if begun == Done then Reaches(p, (w', Task(Setting(k, pool, org, body), stack)))
            else Reaches(p, Entered(Release(Rollback(w', k), k), None, stack, pool, org, body))
  {
    var p := (w, Task(Beginning(k, pool, org, body), stack));
    Stepped(p);
    var (w', begun) := Begin(w, k);
    if begun == Threw {
      var q := (w', Task(RollingBack(k), stack));
      assert TaskStep(p.0, p.1) == q;
      RollbackAlone(w', k, stack);
      ReachesTwice(p, q, Entered(Release(Rollback(w', k), k), None, stack, pool, org, body));
    }
  }

  /** From a connection checked out to the scope's work, or to the failure. */
  lemma BeginThenSetLocal(w: World, k: ClientId, stack: seq<Frame>, pool: Pool, org: Option<Org>, body: Work)
    requires Fits((w, Task(Beginning(k, pool, org, body), stack)))
    ensures k < |w.clients|
    ensures var (w2, begun) := Begin(w, k);
            var (w3, set_) := SetLocal(w2, k, org);
            Reaches((w, Task(Beginning(k, pool, org, body), stack)),
                    if begun == Threw then Entered(Release(Rollback(w2, k), k), None, stack, pool, org, body)
                    else if set_ == Threw then Entered(Release(Rollback(w3, k), k), None, stack, pool, org, body)
                    else Entered(w3, Some(k), stack, pool, org, body))
  {
    BeginAlone(w, k, stack, pool, org, body);
    var (w2, begun) := Begin(w, k);
    if begun == Done {
      SetLocalAlone(w2, k, stack, pool, org, body);
      var (w3, set_) := SetLocal(w2, k, org);
      ReachesTwice((w, Task(Beginning(k, pool, org, body), stack)), (w2, Task(Setting(k, pool, org, body), stack)),
                   if set_ == Threw then Entered(Release(Rollback(w3, k), k), None, stack, pool, org, body)
                   else Entered(w3, Some(k), stack, pool, org, body));
    }
  }

  /** From the checkout of a scope to its work, or to the failure. */
  lemma EnterAlone(p: Turn, w0: World, stack: seq<Frame>, pool: Pool, org: Option<Org>, body: Work)
    requires Reaches(p, Opening(w0, stack, pool, org, body))
    ensures var (w1, got) := Enter(w0, pool, org); Reaches(p, Entered(w1, got, stack, pool, org, body))
  {
    var (w1, got) := Checkout(w0, pool);
    if got.Some? {
      BeginThenSetLocal(w1, got.value, stack, pool, org, body);
      var (w2, got2) := Enter(w0, pool, org);
      ReachesTwice(p, (w1, Task(Beginning(got.value, pool, org, body), stack)),
                   Entered(w2, got2, stack, pool, org, body));
    }
  }

  lemma FinishAlone(w: World, out: Outcome, f: Frame, stack: seq<Frame>)
    requires f.Scope? && Fits((w, Task(Returned(out), [f] + stack)))
    ensures f.ambient.client < |w.clients|
    ensures var (w', out') := Finish(w, f.ambient.client, out);
            Reaches((w, Task(Returned(out), [f] + stack)), (w', Task(Returned(out'), stack)))
  {
    var p, k := (w, Task(Returned(out), [f] + stack)), f.ambient.client;
    assert ([f] + stack)[1..] == stack;
    assert ScopeClients([f] + stack) == [k] + ScopeClients(stack);
    assert k in [k] + ScopeClients(stack);
    forall j | j in ScopeClients(stack) ensures j in ScopeClients([f] + stack) {}
    Stepped(p);
    var q := TaskStep(p.0, p.1);
    if q.1.control.RollingBack? {
      RollbackAlone(q.0, k, stack);
    } else {
      ReleaseAlone(q.0, k, q.1.control.out, stack);
    }
    var (w', out') := Finish(w, k, out);
    ReachesTwice(p, q, (w', Task(Returned(out'), stack)));
  }

  // ---- the theorem ----

  /** How the interpreter says the work ends, from the point of view of the task. */
  function Ended(w: World, stack: seq<Frame>, work: Work): Turn
    requires Ranged(w, stack)
  {
    var (w', out) := Exec(w, AmbientOf(stack), DepthOf(stack), work);
    Back(w', out, stack, Stored(w, AmbientOf(stack), DepthOf(stack), work))
  }

  /**
   * Steps of one caller in a row take it from any work to its return, with exactly the
   * world, the outcome and the stored rows that the interpreter gives for that work.
   */
  lemma {:induction false} AloneIsExec(w: World, stack: seq<Frame>, work: Work)
    requires Fits((w, Task(Running(work), stack)))
    ensures Ranged(w, stack)
    ensures Reaches((w, Task(Running(work), stack)), Ended(w, stack, work))
    decreases work, 2
  {
    AmbientIsAScope(stack);
    match work
    case Append(input) => AppendAlone(w, stack, input);
    case Select(test, yes, no) => SelectAlone(w, stack, test, yes, no);
    case Seq(first, then_) =>
      BothAlone(w, stack, first, then_, Done, work);
      NoMore(Stored(w, AmbientOf(stack), DepthOf(stack), first));
    case Catch(body, handler) =>
      BothAlone(w, stack, body, handler, Threw, work);
      NoMore(Stored(w, AmbientOf(stack), DepthOf(stack), body));
    case InOrg(pool, org, body) => InOrgAlone(w, stack, pool, org, body);
    case InSystem(pool, body) => InSystemAlone(w, stack, pool, body);
    case _ => StatementAlone(w, stack, work);
  }

  lemma {:induction false} SelectAlone(w: World, stack: seq<Frame>, test: seq<Row> -> bool, yes: Work, no: Work)
    requires Fits((w, Task(Running(Select(test, yes, no)), stack))) && Ranged(w, stack)
    ensures Reaches((w, Task(Running(Select(test, yes, no)), stack)), Ended(w, stack, Select(test, yes, no)))
    decreases Select(test, yes, no), 0
  {
    var p := (w, Task(Running(Select(test, yes, no)), stack));
    Stepped(p);
    StoreNothing(stack);
    if AmbientOf(stack).Some? {
      var (w1, out) := Query(Look(w, AmbientOf(stack).value, DepthOf(stack)), AmbientOf(stack).value.client);
      if out == Done {
        var next := if test(Read(w1, AmbientOf(stack).value.client)) then yes else no;
        var q := (w1, Task(Running(next), stack));
        assert TaskStep(p.0, p.1) == q;
        AloneIsExec(w1, stack, next);
        ReachesTwice(p, q, Ended(w1, stack, next));
      }
    }
  }

  lemma NoMore(rows: seq<Row>)
    ensures rows + [] == rows
  {
  }

  /** From the return of the first piece under the frame of the second. */
  lemma FirstReturns(w: World, stack: seq<Frame>, first: Work, second: Work, on: Outcome, w1: World, out: Outcome,
        rows: seq<Row>)
    requires Fits((w, Task(Running(Both(first, second, on)), stack)))
    requires Reaches((w, Task(Running(first), [Below(second, on)] + stack)),
                     Back(w1, out, [Below(second, on)] + stack, rows))
    ensures Reaches((w, Task(Running(Both(first, second, on)), stack)),
                    (w1, Task(if out == on then Running(second) else Returned(out), Store(stack, rows))))
  {
    var p, f := (w, Task(Running(Both(first, second, on)), stack)), Below(second, on);
    StoreUnder(f, stack, rows);
    if on == Done {
      SeqStart(w, stack, first, second);
    } else {
      CatchStart(w, stack, first, second);
    }
    var q, r := (w, Task(Running(first), [f] + stack)), (w1, Task(Returned(out), [f] + Store(stack, rows)));
    ReachesTwice(p, q, r);
    BothResume(w1, Store(stack, rows), out, second, on);
    ReachesTwice(p, r, (w1, Task(if out == on then Running(second) else Returned(out), Store(stack, rows))));
  }

  /** And on to the return of the second. */
  lemma SecondReturns(p: Turn, w1: World, stack: seq<Frame>, rows: seq<Row>, second: Work, w2: World, out: Outcome,
        more: seq<Row>)
    requires Reaches(p, (w1, Task(Running(second), Store(stack, rows))))
    requires Reaches((w1, Task(Running(second), Store(stack, rows))), Back(w2, out, Store(stack, rows), more))
    ensures Reaches(p, Back(w2, out, stack, rows + more))
  {
    StoreTwice(stack, rows, more);
    ReachesTwice(p, (w1, Task(Running(second), Store(stack, rows))), Back(w2, out, stack, rows + more));
  }

  lemma {:induction false} FirstAlone(w: World, stack: seq<Frame>, first: Work, second: Work, on: Outcome, work: Work)
    requires work == Both(first, second, on)
    requires Fits((w, Task(Running(work), stack))) && Ranged(w, stack)
    ensures var (w1, out) := Exec(w, AmbientOf(stack), DepthOf(stack), first);
            var rows := Stored(w, AmbientOf(stack), DepthOf(stack), first);
            Reaches((w, Task(Running(work), stack)),
                    (w1, Task(if out == on then Running(second) else Returned(out), Store(stack, rows))))
    decreases work, 0
  {
    var f := Below(second, on);
    var (w1, out) := Exec(w, AmbientOf(stack), DepthOf(stack), first);
    var rows := Stored(w, AmbientOf(stack), DepthOf(stack), first);
    StoreUnder(f, stack, rows);
    AloneIsExec(w, [f] + stack, first);
    FirstReturns(w, stack, first, second, on, w1, out, rows);
  }

  lemma {:induction false} BothAlone(w: World, stack: seq<Frame>, first: Work, second: Work, on: Outcome, work: Work)
    requires work == Both(first, second, on)
    requires Fits((w, Task(Running(work), stack))) && Ranged(w, stack)
    ensures var amb, depth := AmbientOf(stack), DepthOf(stack);
            var (w1, out) := Exec(w, amb, depth, first);
            var rows := Stored(w, amb, depth, first);
            Reaches((w, Task(Running(work), stack)),
                    if out != on then Back(w1, out, stack, rows)
                    else
                      var (w2, out2) := Exec(w1, amb, depth, second);
                      Back(w2, out2, stack, rows + Stored(w1, amb, depth, second)))
    decreases work, 1
  {
    var amb, depth := AmbientOf(stack), DepthOf(stack);
    var (w1, out) := Exec(w, amb, depth, first);
    var rows := Stored(w, amb, depth, first);
    FirstAlone(w, stack, first, second, on, work);
    if out == on {
      StoreKeeps(stack, rows);
      AloneIsExec(w1, Store(stack, rows), second);
      var (w2, out2) := Exec(w1, amb, depth, second);
      SecondReturns((w, Task(Running(work), stack)), w1, stack, rows, second, w2, out2, Stored(w1, amb, depth, second));
    }
  }

  lemma {:induction false} InOrgAlone(w: World, stack: seq<Frame>, pool: Pool, org: Org, body: Work)
    requires Fits((w, Task(Running(InOrg(pool, org, body)), stack))) && Ranged(w, stack)
    ensures Reaches((w, Task(Running(InOrg(pool, org, body)), stack)), Ended(w, stack, InOrg(pool, org, body)))
    decreases InOrg(pool, org, body), 0
  {
    var p, amb := (w, Task(Running(InOrg(pool, org, body)), stack)), AmbientOf(stack);
    Stepped(p);
    StoreNothing(stack);
    if SafeId(org) {
      if Joins(amb, pool) {
        if amb.value.org == Some(org) {
          var q := (w, Task(Running(body), stack));
          assert TaskStep(p.0, p.1) == q;
          AloneIsExec(w, stack, body);
          ReachesTwice(p, q, Ended(w, stack, body));
        }
      } else {
        ScopeReturns(p, w, stack, pool, Some(org), body);
      }
    }
  }

  lemma {:induction false} InSystemAlone(w: World, stack: seq<Frame>, pool: Pool, body: Work)
    requires Fits((w, Task(Running(InSystem(pool, body)), stack))) && Ranged(w, stack)
    ensures Reaches((w, Task(Running(InSystem(pool, body)), stack)), Ended(w, stack, InSystem(pool, body)))
    decreases InSystem(pool, body), 0
  {
    var p := (w, Task(Running(InSystem(pool, body)), stack));
    Stepped(p);
    StoreNothing(stack);
    var (effective, vars) := ScopePool(w.vars, w.env, pool);
    if effective.Some? {
      ScopeReturns(p, w.(vars := vars), stack, effective.value, None, body);
    }
  }

  lemma {:induction false} ScopeReturns(p: Turn, w0: World, stack: seq<Frame>, pool: Pool, org: Option<Org>, body: Work)
    requires Reaches(p, Opening(w0, stack, pool, org, body))
    ensures var (w', out) := ExecOpened(w0, pool, org, DepthOf(stack), body);
            Reaches(p, (w', Task(Returned(out), stack)))
    decreases body, 6
  {
    EnterAlone(p, w0, stack, pool, org, body);
    var (w1, got) := Enter(w0, pool, org);
    OpenedAlone(p, w1, got, stack, pool, org, body);
    OpenedIs(w0, pool, org, DepthOf(stack), body);
  }

  /** The rest of an opened scope after its opening. */
  function Rest(w: World, got: Option<ClientId>, pool: Pool, org: Option<Org>, depth: nat, body: Work): (World, Outcome)
    requires got.Some? ==> got.value < |w.clients|
  {
    if got.None? then (w, Threw)
    else
      var (w2, out) := Exec(w, Some(Ambient(got.value, pool, org)), depth + 1, body);
      Finish(w2, got.value, out)
  }

  lemma OpenedIs(w: World, pool: Pool, org: Option<Org>, depth: nat, body: Work)
    ensures var (w1, got) := Enter(w, pool, org);
            ExecOpened(w, pool, org, depth, body) == Rest(w1, got, pool, org, depth, body)
  {
  }

  lemma {:induction false} OpenedAlone(p: Turn, w: World, got: Option<ClientId>, stack: seq<Frame>, pool: Pool,
        org: Option<Org>, body: Work)
    requires (got.Some? ==> got.value < |w.clients|) && Reaches(p, Entered(w, got, stack, pool, org, body))
    ensures var (w', out) := Rest(w, got, pool, org, DepthOf(stack), body);
            Reaches(p, (w', Task(Returned(out), stack)))
    decreases body, 5
  {
    if got.Some? {
      EnteredAlone(p, w, got.value, stack, pool, org, body);
    }
  }

  lemma {:induction false} EnteredAlone(p: Turn, w: World, k: ClientId, stack: seq<Frame>, pool: Pool, org: Option<Org>,
        body: Work)
    requires k < |w.clients| && Reaches(p, Entered(w, Some(k), stack, pool, org, body))
    ensures var (w2, out) := Exec(w, Some(Ambient(k, pool, org)), DepthOf(stack) + 1, body);
            var (w', out') := Finish(w2, k, out);
            Reaches(p, (w', Task(Returned(out'), stack)))
    decreases body, 4
  {
    ScopeAlone(w, Scope(Ambient(k, pool, org), [], w.clients[k].refused), stack, body);
    var (w2, out) := Exec(w, Some(Ambient(k, pool, org)), DepthOf(stack) + 1, body);
    var (w', out') := Finish(w2, k, out);
    ReachesTwice(p, Entered(w, Some(k), stack, pool, org, body), (w', Task(Returned(out'), stack)));
  }

  /** The work of a scope that has just been opened, and its end. */
  lemma {:induction false} ScopeAlone(w: World, f: Frame, stack: seq<Frame>, body: Work)
    requires f.Scope? && Fits((w, Task(Running(body), [f] + stack)))
    ensures f.ambient.client < |w.clients|
    ensures var (w2, out) := Exec(w, Some(f.ambient), DepthOf(stack) + 1, body);
            f.ambient.client < |w2.clients|
            && var (w', out') := Finish(w2, f.ambient.client, out);
               Reaches((w, Task(Running(body), [f] + stack)), (w', Task(Returned(out'), stack)))
    decreases body, 3
  {
    assert ([f] + stack)[1..] == stack;
    assert AmbientOf([f] + stack) == Some(f.ambient) && DepthOf([f] + stack) == DepthOf(stack) + 1;
    var p := (w, Task(Running(body), [f] + stack));
    AloneIsExec(w, [f] + stack, body);
    var q := Ended(w, [f] + stack, body);
    var f' := f.(stored := f.stored + Stored(w, Some(f.ambient), DepthOf(stack) + 1, body));
    assert q.1.stack == [f'] + stack;
    FinishAlone(q.0, q.1.control.out, f', stack);
    var (w', out') := Finish(q.0, f.ambient.client, q.1.control.out);
    ReachesTwice(p, q, (w', Task(Returned(out'), stack)));
  }

  // ---- among other callers ----

  function Repeat(i: nat, n: nat): (r: seq<nat>)
    ensures forall j :: 0 <= j < |r| ==> r[j] == i
  {
    if n == 0 then [] else [i] + Repeat(i, n - 1)
  }

  /** n turns of caller i in a row lead from s to r. */
  ghost predicate RunsTo(s: System, i: nat, n: nat, r: System)
    requires Good(s) && i < |s.tasks|
  {
    Interleave(s, Repeat(i, n)) == r
  }

  ghost predicate Uninterrupted(s: System, i: nat, r: System)
    requires Good(s) && i < |s.tasks|
  {
    exists n: nat :: RunsTo(s, i, n, r)
  }

  lemma {:induction false} TraceIsARun(s: System, i: nat, trace: seq<Turn>, q: Turn)
    requires Good(s) && i < |s.tasks| && IsTrace(trace, (s.world, s.tasks[i]), q)
    ensures RunsTo(s, i, |trace| - 1, System(q.0, s.tasks[i := q.1]))
    decreases |trace|
  {
    if |trace| == 1 {
      assert s.tasks[i := s.tasks[i]] == s.tasks;
    } else {
      assert StepTo(trace[0], trace[1]);
      StepKeepsGood(s, i);
      var rest, s1 := trace[1..], Step(s, i);
      forall j, k | 0 <= j < |rest| && 0 <= k < |rest| && k == j + 1
        ensures StepTo(rest[j], rest[k])
      {
        assert StepTo(trace[j + 1], trace[k + 1]);
      }
      TraceIsARun(s1, i, rest, q);
      assert Repeat(i, |trace| - 1)[1..] == Repeat(i, |rest| - 1);
      assert s1.tasks[i := q.1] == s.tasks[i := q.1];
    }
  }

  /**
   * Among any other callers, wherever they are in their work: a caller that is not
   * interrupted does with the database exactly what the interpreter says, and the others
   * are left as they were.
   */
  lemma UninterruptedCallerIsExec(s: System, i: nat, work: Work)
    requires Good(s) && i < |s.tasks| && s.tasks[i].control == Running(work)
    ensures Ranged(s.world, s.tasks[i].stack)
    ensures var (w', t') := Ended(s.world, s.tasks[i].stack, work);
            Uninterrupted(s, i, System(w', s.tasks[i := t']))
  {
    var p := (s.world, s.tasks[i]);
    assert TaskServed(s.world, s.tasks[i]) && p == (s.world, Task(Running(work), s.tasks[i].stack));
    AloneIsExec(s.world, s.tasks[i].stack, work);
    var q := Ended(s.world, s.tasks[i].stack, work);
    var trace :| IsTrace(trace, p, q);
    TraceIsARun(s, i, trace, q);
  }
}
