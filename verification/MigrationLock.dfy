/**
 * The migration lock: any number of concurrent migrate() calls around one session-level
 * advisory lock, with a failure possible at every query and sessions that may die.
 */
module MigrationLock {
  import opened Base

  type SessionId = nat
  type MigratorId = nat

  datatype Command = Connect | Lock | Unlock | Release

  // ---- one call, as the source writes it ----

  /** What one call issues, and whether it returns normally, given which of its steps succeed. */
  function Issued(connects: bool, locks: bool): seq<Command> {
    if !connects then [Connect] else if locks then [Connect, Lock, Unlock, Release] else [Connect, Lock, Release]
  }

  /** migrate(): the nested try/finally around lock, migrations, unlock and release. */
  method Migrate(connects: bool, locks: bool, bodyRuns: bool, unlocks: bool) returns (issued: seq<Command>, ok: bool)
    ensures issued == Issued(connects, locks)
    ensures !connects ==> issued == [Connect]
    ensures connects && !locks ==> issued == [Connect, Lock, Release]
    ensures connects && locks ==> issued == [Connect, Lock, Unlock, Release]
    ensures ok <==> connects && locks && bodyRuns && unlocks
    ensures Unlock in issued <==> connects && locks
    ensures multiset(issued)[Release] == if connects then 1 else 0
  {
    issued := [Connect];
    if !connects {
      return issued, false;
    }
    var lockHeld := false;
    ok := true;
    issued := issued + [Lock];
    if locks {
      lockHeld := true;
      ok := bodyRuns;
    } else {
      ok := false;
    }
    // finally
    if lockHeld {
      issued := issued + [Unlock];
      ok := ok && unlocks;
    }
    // inner finally
    issued := issued + [Release];
  }

  // ---- many calls ----

  datatype Pc =
    | Start
    | AwaitLock(session: SessionId)
    | InBody(session: SessionId)
    | AwaitUnlock(session: SessionId)
    | Releasing(session: SessionId)
    | Finished
  {
    predicate OnSession() { !Start? && !Finished? }
  }

  /** `lockHeld` is the source's flag; `issued` are the commands sent so far. */
  datatype Migrator = Migrator(pc: Pc, lockHeld: bool, connected: bool, issued: seq<Command>)

  /** `holds` counts the session's acquisitions of the lock (it is re-entrant); `leaks` those nobody will undo. */
  datatype Session = Session(user: Option<MigratorId>, alive: bool, holds: nat, leaks: nat)

  datatype State = State(sessions: seq<Session>, migrators: seq<Migrator>, owner: Option<SessionId>)

  datatype Step =
    | Checkout(m: MigratorId, reuse: SessionId)
    | CheckoutFails(m: MigratorId)
    | Grant(m: MigratorId)
    | LockFails(m: MigratorId, granted: bool)
    | BodyEnds(m: MigratorId)
    | UnlockReturns(m: MigratorId)
    | UnlockFails(m: MigratorId, released: bool)
    | GiveBack(m: MigratorId)
    | Die(session: SessionId)

  function Init(n: nat): State {
    State([], seq(n, _ => Migrator(Start, false, false, [])), None)
  }

  predicate Free(s: State, k: SessionId) {
    s.owner.None? || s.owner == Some(k)
  }

  predicate Reusable(s: State, k: SessionId) {
    k < |s.sessions| && s.sessions[k].user.None? && s.sessions[k].alive
  }

  predicate Enabled(s: State, step: Step) {
    match step
    case Checkout(m, _) => m < |s.migrators| && s.migrators[m].pc.Start?
    case CheckoutFails(m) => m < |s.migrators| && s.migrators[m].pc.Start?
    case Grant(m) =>
      && m < |s.migrators| && s.migrators[m].pc.AwaitLock? && s.migrators[m].pc.session < |s.sessions|
      && s.sessions[s.migrators[m].pc.session].alive && Free(s, s.migrators[m].pc.session)
    case LockFails(m, granted) =>
      && m < |s.migrators| && s.migrators[m].pc.AwaitLock? && s.migrators[m].pc.session < |s.sessions|
      && (granted ==> s.sessions[s.migrators[m].pc.session].alive && Free(s, s.migrators[m].pc.session))
    case BodyEnds(m) => m < |s.migrators| && s.migrators[m].pc.InBody?
    case UnlockReturns(m) =>
      && m < |s.migrators| && s.migrators[m].pc.AwaitUnlock? && s.migrators[m].pc.session < |s.sessions|
      && s.sessions[s.migrators[m].pc.session].alive && s.sessions[s.migrators[m].pc.session].holds > 0
    case UnlockFails(m, released) =>
      && m < |s.migrators| && s.migrators[m].pc.AwaitUnlock? && s.migrators[m].pc.session < |s.sessions|
      && (released ==> s.sessions[s.migrators[m].pc.session].alive && s.sessions[s.migrators[m].pc.session].holds > 0)
    case GiveBack(m) => m < |s.migrators| && s.migrators[m].pc.Releasing? && s.migrators[m].pc.session < |s.sessions|
    case Die(k) => k < |s.sessions| && s.sessions[k].alive
  }

  function Moved(s: State, m: MigratorId, pc: Pc, issued: seq<Command>): State
    requires m < |s.migrators|
  {
    s.(migrators := s.migrators[m := s.migrators[m].(pc := pc, issued := s.migrators[m].issued + issued)])
  }

  /** The server gives session k the lock once more. */
  function Acquired(s: State, k: SessionId, leaked: nat): State
    requires k < |s.sessions|
  {
    var c := s.sessions[k];
    s.(sessions := s.sessions[k := c.(holds := c.holds + 1, leaks := c.leaks + leaked)],
       owner := Some(k))
  }

  function Dropped(s: State, k: SessionId): State
    requires k < |s.sessions| && s.sessions[k].holds > 0
  {
    s.(sessions := s.sessions[k := s.sessions[k].(holds := s.sessions[k].holds - 1)],
       owner := if s.sessions[k].holds == 1 then None else s.owner)
  }

  function Leaked(s: State, k: SessionId): State
    requires k < |s.sessions|
  {
    if s.sessions[k].alive then s.(sessions := s.sessions[k := s.sessions[k].(leaks := s.sessions[k].leaks + 1)]) else s
  }

  function Next(s: State, step: Step): State
    requires Enabled(s, step)
  {
    match step
    case Checkout(m, reuse) =>
      var k := if Reusable(s, reuse) then reuse else |s.sessions|;
      var s1 := if Reusable(s, reuse) then s.(sessions := s.sessions[k := s.sessions[k].(user := Some(m))])
                else s.(sessions := s.sessions + [Session(Some(m), true, 0, 0)]);
      var s2 := s1.(migrators := s1.migrators[m := s1.migrators[m].(connected := true)]);
      Moved(s2, m, AwaitLock(k), [Connect, Lock])
    case CheckoutFails(m) => Moved(s, m, Finished, [Connect])
    case Grant(m) =>
      var k := s.migrators[m].pc.session;
      var s1 := Acquired(s, k, 0);
      var s2 := s1.(migrators := s1.migrators[m := s1.migrators[m].(lockHeld := true)]);
      Moved(s2, m, InBody(k), [])
    case LockFails(m, granted) =>
      var k := s.migrators[m].pc.session;
      Moved(if granted then Acquired(s, k, 1) else s, m, Releasing(k), [])
    case BodyEnds(m) => Moved(s, m, AwaitUnlock(s.migrators[m].pc.session), [Unlock])
    case UnlockReturns(m) =>
      var k := s.migrators[m].pc.session;
      Moved(Dropped(s, k), m, Releasing(k), [])
    case UnlockFails(m, released) =>
      var k := s.migrators[m].pc.session;
      Moved(if released then Dropped(s, k) else Leaked(s, k), m, Releasing(k), [])
    case GiveBack(m) =>
      var k := s.migrators[m].pc.session;
      Moved(s.(sessions := s.sessions[k := s.sessions[k].(user := None)]), m, Finished, [Release])
    case Die(k) =>
      s.(sessions := s.sessions[k := s.sessions[k].(alive := false, holds := 0)],
         owner := if s.owner == Some(k) then None else s.owner)
  }

  // ---- invariants ----

  /** Sessions and migrators that use them pair up. */
  ghost predicate Paired(s: State) {
    && (forall m :: 0 <= m < |s.migrators| && s.migrators[m].pc.OnSession() ==>
          s.migrators[m].pc.session < |s.sessions| && s.sessions[s.migrators[m].pc.session].user == Some(m))
    && (forall k :: 0 <= k < |s.sessions| && s.sessions[k].user.Some? ==>
          var m := s.sessions[k].user.value;
          m < |s.migrators| && s.migrators[m].pc.OnSession() && s.migrators[m].pc.session == k)
  }

  /** Session k's user has the lock and will give it back: it runs the migrations or waits for the unlock. */
  predicate InUse(s: State, k: SessionId)
    requires k < |s.sessions|
  {
    && s.sessions[k].user.Some? && s.sessions[k].user.value < |s.migrators|
    && (|| s.migrators[s.sessions[k].user.value].pc == InBody(k)
        || s.migrators[s.sessions[k].user.value].pc == AwaitUnlock(k))
  }

  ghost predicate Accounted(s: State) {
    && (forall k :: 0 <= k < |s.sessions| ==>
          s.sessions[k].holds
          == if s.sessions[k].alive then s.sessions[k].leaks + (if InUse(s, k) then 1 else 0) else 0)
    && (forall k :: 0 <= k < |s.sessions| ==> (s.sessions[k].holds > 0 <==> s.owner == Some(k)))
    && (s.owner.Some? ==> s.owner.value < |s.sessions|)
  }

  /** Where a call stands determines what it has issued; the flag says whether its lock call returned. */
  predicate Traced(m: Migrator) {
    match m.pc
    case Start => m.issued == [] && !m.lockHeld && !m.connected
    case AwaitLock(_) => m.issued == [Connect, Lock] && !m.lockHeld && m.connected
    case InBody(_) => m.issued == [Connect, Lock] && m.lockHeld && m.connected
    case AwaitUnlock(_) => m.issued == [Connect, Lock, Unlock] && m.lockHeld && m.connected
    case Releasing(_) => m.issued == (if m.lockHeld then [Connect, Lock, Unlock] else [Connect, Lock]) && m.connected
    case Finished => m.issued == Issued(m.connected, m.lockHeld) && (m.lockHeld ==> m.connected)
  }

  ghost predicate Inv(s: State) {
    Paired(s) && Accounted(s) && forall m :: 0 <= m < |s.migrators| ==> Traced(s.migrators[m])
  }

  /** No session changes hands. */
  lemma PairedFrame(s: State, t: State)
    requires Paired(s) && |t.sessions| == |s.sessions| && |t.migrators| == |s.migrators|
    requires forall k :: 0 <= k < |s.sessions| ==> t.sessions[k].user == s.sessions[k].user
    requires forall m :: 0 <= m < |s.migrators| ==>
               && t.migrators[m].pc.OnSession() == s.migrators[m].pc.OnSession()
               && (s.migrators[m].pc.OnSession() ==> t.migrators[m].pc.session == s.migrators[m].pc.session)
    ensures Paired(t)
  {
  }

  lemma CheckoutPaired(s: State, m: MigratorId, reuse: SessionId)
    requires Inv(s) && Enabled(s, Checkout(m, reuse))
    ensures Paired(Next(s, Checkout(m, reuse)))
  {
    var t := Next(s, Checkout(m, reuse));
    var k := if Reusable(s, reuse) then reuse else |s.sessions|;
    assert t.sessions[k].user == Some(m) && t.migrators[m].pc == AwaitLock(k);
    assert forall j :: 0 <= j < |s.migrators| && j != m ==> t.migrators[j] == s.migrators[j];
    assert forall j :: 0 <= j < |t.sessions| && j != k ==> t.sessions[j] == s.sessions[j];
  }

  lemma GiveBackPaired(s: State, m: MigratorId)
    requires Inv(s) && Enabled(s, GiveBack(m))
    ensures Paired(Next(s, GiveBack(m)))
  {
    var t := Next(s, GiveBack(m));
    var k := s.migrators[m].pc.session;
    assert t.sessions[k].user == None && t.migrators[m].pc == Finished;
    assert forall j :: 0 <= j < |s.migrators| && j != m ==> t.migrators[j] == s.migrators[j];
    assert forall j :: 0 <= j < |t.sessions| && j != k ==> t.sessions[j] == s.sessions[j];
  }

  lemma NextPaired(s: State, step: Step)
    requires Inv(s) && Enabled(s, step)
    ensures Paired(Next(s, step))
  {
    match step
    case Checkout(m, reuse) => CheckoutPaired(s, m, reuse);
    case GiveBack(m) => GiveBackPaired(s, m);
    case CheckoutFails(m) => PairedFrame(s, Next(s, step));
    case Grant(m) => PairedFrame(s, Next(s, step));
    case LockFails(m, granted) => PairedFrame(s, Next(s, step));
    case BodyEnds(m) => PairedFrame(s, Next(s, step));
    case UnlockReturns(m) => PairedFrame(s, Next(s, step));
    case UnlockFails(m, released) => PairedFrame(s, Next(s, step));
    case Die(k) => PairedFrame(s, Next(s, step));
  }

  lemma NextTraced(s: State, step: Step)
    requires Inv(s) && Enabled(s, step)
    ensures forall m :: 0 <= m < |s.migrators| ==> Traced(Next(s, step).migrators[m])
    ensures |Next(s, step).migrators| == |s.migrators|
  {
    var t := Next(s, step);
    forall m | 0 <= m < |s.migrators|
      ensures Traced(t.migrators[m])
    {
      assert Traced(s.migrators[m]);
      if step.Die? || step.m != m { assert t.migrators[m] == s.migrators[m]; }
    }
  }

  /** Only session k's account may change, and it is settled again. */
  lemma AccountedFrame(s: State, t: State, k: SessionId)
    requires Accounted(s) && |t.sessions| >= |s.sessions|
    requires forall j :: 0 <= j < |t.sessions| && j != k ==>
               j < |s.sessions| && t.sessions[j] == s.sessions[j] && InUse(t, j) == InUse(s, j)
    requires k < |t.sessions| ==>
               && t.sessions[k].holds
                  == (if t.sessions[k].alive then t.sessions[k].leaks + (if InUse(t, k) then 1 else 0) else 0)
               && (t.sessions[k].holds > 0 <==> t.owner == Some(k))
    requires t.owner == s.owner || ((s.owner.None? || s.owner == Some(k)) && (t.owner.None? || t.owner == Some(k)))
    requires t.owner.Some? ==> t.owner.value < |t.sessions|
    ensures Accounted(t)
  {
  }

  /** A migrator on another session keeps its own session's use. */
  lemma UseElsewhere(s: State, t: State, m: MigratorId, j: SessionId)
    requires Paired(s) && j < |s.sessions| && j < |t.sessions| && m < |s.migrators| == |t.migrators|
    requires t.sessions[j].user == s.sessions[j].user && s.sessions[j].user != Some(m)
    requires forall i :: 0 <= i < |s.migrators| && i != m ==> t.migrators[i] == s.migrators[i]
    ensures InUse(t, j) == InUse(s, j)
  {
  }

  lemma MigratorStepAccounted(s: State, step: Step, m: MigratorId)
    requires Inv(s) && Enabled(s, step)
    requires step == Grant(m) || step == BodyEnds(m) || step == UnlockReturns(m) || step == GiveBack(m)
             || (step.LockFails? && step.m == m) || (step.UnlockFails? && step.m == m)
    ensures Accounted(Next(s, step))
  {
    var t := Next(s, step);
    var k := s.migrators[m].pc.session;
    assert s.sessions[k].user == Some(m);
    assert forall i :: 0 <= i < |s.migrators| && i != m ==> t.migrators[i] == s.migrators[i];
    forall j | 0 <= j < |t.sessions| && j != k
      ensures j < |s.sessions| && t.sessions[j] == s.sessions[j] && InUse(t, j) == InUse(s, j)
    {
      UseElsewhere(s, t, m, j);
    }
    assert InUse(s, k) <==> s.migrators[m].pc.InBody? || s.migrators[m].pc.AwaitUnlock?;
    assert InUse(t, k) <==> t.migrators[m].pc.InBody? || t.migrators[m].pc.AwaitUnlock?;
    AccountedFrame(s, t, k);
  }

  lemma CheckoutAccounted(s: State, m: MigratorId, reuse: SessionId)
    requires Inv(s) && Enabled(s, Checkout(m, reuse))
    ensures Accounted(Next(s, Checkout(m, reuse)))
  {
    var t := Next(s, Checkout(m, reuse));
    var k := if Reusable(s, reuse) then reuse else |s.sessions|;
    assert forall i :: 0 <= i < |s.migrators| && i != m ==> t.migrators[i] == s.migrators[i];
    forall j | 0 <= j < |t.sessions| && j != k
      ensures j < |s.sessions| && t.sessions[j] == s.sessions[j] && InUse(t, j) == InUse(s, j)
    {
      assert s.sessions[j].user != Some(m);
      UseElsewhere(s, t, m, j);
    }
    assert t.sessions[k].user == Some(m) && t.migrators[m].pc == AwaitLock(k) && !InUse(t, k);
    AccountedFrame(s, t, k);
  }

  lemma OtherStepAccounted(s: State, step: Step)
    requires Inv(s) && Enabled(s, step) && (step.CheckoutFails? || step.Die?)
    ensures Accounted(Next(s, step))
  {
    var t := Next(s, step);
    forall j | 0 <= j < |t.sessions| ensures InUse(t, j) == InUse(s, j) {
      if step.CheckoutFails? {
        assert s.sessions[j].user != Some(step.m);
        UseElsewhere(s, t, step.m, j);
      }
    }
    AccountedFrame(s, t, if step.Die? then step.session else |s.sessions|);
  }

  lemma NextAccounted(s: State, step: Step)
    requires Inv(s) && Enabled(s, step)
    ensures Accounted(Next(s, step))
  {
    match step
    case Checkout(m, reuse) => CheckoutAccounted(s, m, reuse);
    case CheckoutFails(_) => OtherStepAccounted(s, step);
    case Die(_) => OtherStepAccounted(s, step);
    case Grant(m) => MigratorStepAccounted(s, step, m);
    case LockFails(m, _) => MigratorStepAccounted(s, step, m);
    case BodyEnds(m) => MigratorStepAccounted(s, step, m);
    case UnlockReturns(m) => MigratorStepAccounted(s, step, m);
    case UnlockFails(m, _) => MigratorStepAccounted(s, step, m);
    case GiveBack(m) => MigratorStepAccounted(s, step, m);
  }

  lemma StepKeepsInv(s: State, step: Step)
    requires Inv(s) && Enabled(s, step)
    ensures Inv(Next(s, step))
  {
    NextPaired(s, step);
    NextTraced(s, step);
    NextAccounted(s, step);
  }

  predicate ValidRun(s: State, steps: seq<Step>)
    decreases steps
  {
    steps == [] || (Enabled(s, steps[0]) && ValidRun(Next(s, steps[0]), steps[1..]))
  }

  function Run(s: State, steps: seq<Step>): State
    requires ValidRun(s, steps)
    decreases steps
  {
    if steps == [] then s else Run(Next(s, steps[0]), steps[1..])
  }

  lemma {:induction false} RunKeepsInv(s: State, steps: seq<Step>)
    requires Inv(s) && ValidRun(s, steps)
    ensures Inv(Run(s, steps))
    decreases steps
  {
    if steps != [] {
      StepKeepsInv(s, steps[0]);
      RunKeepsInv(Next(s, steps[0]), steps[1..]);
    }
  }

  // ---- results ----

  /** Of any two calls inside the migration body at once, at most one still has a live session. */
  lemma AtMostOneMigratesOnALiveSession(n: nat, steps: seq<Step>, i: MigratorId, j: MigratorId)
    requires ValidRun(Init(n), steps)
    requires var s := Run(Init(n), steps);
             i < |s.migrators| && j < |s.migrators| && i != j && s.migrators[i].pc.InBody? && s.migrators[j].pc.InBody?
    ensures var s := Run(Init(n), steps);
            var a, b := s.migrators[i].pc.session, s.migrators[j].pc.session;
            a < |s.sessions| && b < |s.sessions| && !(s.sessions[a].alive && s.sessions[b].alive)
  {
    RunKeepsInv(Init(n), steps);
    var s := Run(Init(n), steps);
    assert InUse(s, s.migrators[i].pc.session) && InUse(s, s.migrators[j].pc.session);
  }

  ghost predicate AllAlive(s: State) {
    forall k :: 0 <= k < |s.sessions| ==> s.sessions[k].alive
  }

  lemma {:induction false} WithoutDeathAllAlive(s: State, steps: seq<Step>)
    requires ValidRun(s, steps) && AllAlive(s) && forall step :: step in steps ==> !step.Die?
    ensures AllAlive(Run(s, steps))
    decreases steps
  {
    if steps != [] {
      assert steps == [steps[0]] + steps[1..];
      WithoutDeathAllAlive(Next(s, steps[0]), steps[1..]);
    }
  }

  /** While no session dies, at most one call is inside the migration body, whatever queries fail. */
  lemma MutualExclusion(n: nat, steps: seq<Step>, i: MigratorId, j: MigratorId)
    requires ValidRun(Init(n), steps) && forall step :: step in steps ==> !step.Die?
    requires var s := Run(Init(n), steps);
             i < |s.migrators| && j < |s.migrators| && s.migrators[i].pc.InBody? && s.migrators[j].pc.InBody?
    ensures i == j
  {
    WithoutDeathAllAlive(Init(n), steps);
    if i != j {
      AtMostOneMigratesOnALiveSession(n, steps, i, j);
    }
  }

  /** The steps of one call. */
  predicate StepOf(step: Step, m: MigratorId) {
    !step.Die? && step.m == m
  }

  /**
   * No call is stuck for good: in every reachable state each unfinished call has a step,
   * and a call in the body on a live session can always end it and return the lock.
   */
  lemma NoCallIsStuck(n: nat, steps: seq<Step>, m: MigratorId)
    requires ValidRun(Init(n), steps)
    requires m < |Run(Init(n), steps).migrators| && !Run(Init(n), steps).migrators[m].pc.Finished?
    ensures var s := Run(Init(n), steps);
            && (exists step :: Enabled(s, step) && StepOf(step, m))
            && (s.migrators[m].pc.AwaitUnlock? && s.migrators[m].pc.session < |s.sessions|
                && s.sessions[s.migrators[m].pc.session].alive ==>
                  Enabled(s, UnlockReturns(m)))
  {
    RunKeepsInv(Init(n), steps);
    var s := Run(Init(n), steps);
    var c := s.migrators[m];
    var step := match c.pc
      case Start => Checkout(m, 0)
      case AwaitLock(_) => LockFails(m, false)
      case InBody(_) => BodyEnds(m)
      case AwaitUnlock(_) => UnlockFails(m, false)
      case _ => GiveBack(m);
    assert c.pc.OnSession() ==> c.pc.session < |s.sessions| && s.sessions[c.pc.session].user == Some(m);
    assert Enabled(s, step) && StepOf(step, m);
    if c.pc.AwaitUnlock? {
      assert InUse(s, c.pc.session);
    }
  }

  /**
   * In every reachable state, a call that waits on a live session can enter beside call
   * i in the body if and only if the session of i is dead and no third one has the lock.
   */
  lemma AnotherEntersExactlyBesideADeadSession(n: nat, steps: seq<Step>, i: MigratorId, j: MigratorId)
    requires ValidRun(Init(n), steps)
    requires var s := Run(Init(n), steps);
             && i < |s.migrators| && j < |s.migrators| && s.migrators[i].pc.InBody? && s.migrators[j].pc.AwaitLock?
             && s.migrators[j].pc.session < |s.sessions| && s.sessions[s.migrators[j].pc.session].alive
    ensures var s := Run(Init(n), steps);
            && s.migrators[i].pc.session < |s.sessions|
            && (Enabled(s, Grant(j)) <==>
                  && !s.sessions[s.migrators[i].pc.session].alive
                  && (s.owner.Some? ==> s.owner.value in {s.migrators[i].pc.session, s.migrators[j].pc.session}))
            && (Enabled(s, Grant(j)) ==>
                  var t := Next(s, Grant(j)); t.migrators[i].pc.InBody? && t.migrators[j].pc.InBody?)
  {
    RunKeepsInv(Init(n), steps);
    var s := Run(Init(n), steps);
    var k, l := s.migrators[i].pc.session, s.migrators[j].pc.session;
    assert s.migrators[i].pc.OnSession() && s.migrators[j].pc.OnSession();
    assert s.sessions[k].user == Some(i) && s.sessions[l].user == Some(j) && k != l && InUse(s, k);
    assert s.sessions[k].alive ==> s.owner == Some(k);
    if Enabled(s, Grant(j)) {
      assert Next(s, Grant(j)).migrators[j].pc == InBody(l) && Next(s, Grant(j)).migrators[i] == s.migrators[i];
    }
  }

  lemma RunCons(s: State, step: Step, rest: seq<Step>)
    requires Enabled(s, step) && ValidRun(Next(s, step), rest)
    ensures ValidRun(s, [step] + rest) && Run(s, [step] + rest) == Run(Next(s, step), rest)
  {
    assert ([step] + rest)[1..] == rest;
  }

  /** A call is inside the body, its session dies, and the lock is free. */
  lemma FirstCallDies()
    ensures Enabled(Init(2), Checkout(0, 0)) && Enabled(Next(Init(2), Checkout(0, 0)), Grant(0))
    ensures Enabled(Next(Next(Init(2), Checkout(0, 0)), Grant(0)), Die(0))
    ensures var s := Next(Next(Next(Init(2), Checkout(0, 0)), Grant(0)), Die(0));
            && |s.sessions| == 1 && s.sessions[0].user.Some? && s.owner.None?
            && |s.migrators| == 2 && s.migrators[0].pc == InBody(0) && s.migrators[1].pc == Start
  {
    var s1 := Next(Init(2), Checkout(0, 0));
    assert s1.sessions == [Session(Some(0), true, 0, 0)] && s1.migrators[0].pc == AwaitLock(0);
    var s2 := Next(s1, Grant(0));
    assert s2.migrators[0].pc == InBody(0) && s2.migrators[1].pc == Start;
  }

  /** Why sessions must live: the server frees a dead session's lock while its migrator is still in the body. */
  lemma DeadSessionAdmitsASecondMigrator()
    ensures var steps := [Checkout(0, 0), Grant(0), Die(0), Checkout(1, 0), Grant(1)];
            && ValidRun(Init(2), steps)
            && Run(Init(2), steps).migrators[0].pc == InBody(0) && Run(Init(2), steps).migrators[1].pc == InBody(1)
  {
    FirstCallDies();
    var s3 := Next(Next(Next(Init(2), Checkout(0, 0)), Grant(0)), Die(0));
    var s4 := Next(s3, Checkout(1, 0));
    assert s4.migrators[1].pc == AwaitLock(1) && s4.sessions[1].alive;
    RunCons(s4, Grant(1), []);
    assert [Grant(1)] + [] == [Grant(1)];
    RunCons(s3, Checkout(1, 0), [Grant(1)]);
    RunCons(Next(Next(Init(2), Checkout(0, 0)), Grant(0)), Die(0), [Checkout(1, 0), Grant(1)]);
    RunCons(Next(Init(2), Checkout(0, 0)), Grant(0), [Die(0), Checkout(1, 0), Grant(1)]);
    RunCons(Init(2), Checkout(0, 0), [Grant(0), Die(0), Checkout(1, 0), Grant(1)]);
  }

  /**
   * Every finished call has issued exactly what one sequential migrate() issues: unlock
   * if and only if its lock call returned, and one release for its checkout; and its
   * connection is back in the pool.
   */
  lemma FinishedCallsAreWellFormed(n: nat, steps: seq<Step>, m: MigratorId)
    requires ValidRun(Init(n), steps)
    requires m < |Run(Init(n), steps).migrators| && Run(Init(n), steps).migrators[m].pc.Finished?
    ensures var s := Run(Init(n), steps);
            var c := s.migrators[m];
            && (Unlock in c.issued <==> c.lockHeld)
            && multiset(c.issued)[Release] == (if c.connected then 1 else 0)
            && c.issued == Issued(c.connected, c.lockHeld)
            && forall k :: 0 <= k < |s.sessions| ==> s.sessions[k].user != Some(m)
  {
    RunKeepsInv(Init(n), steps);
    var c := Run(Init(n), steps).migrators[m];
    assert Traced(c);
    assert !c.connected ==> !c.lockHeld;
  }

  /** The session on which the step leaves an acquisition that no call will undo. */
  function Leaves(s: State, step: Step): Option<SessionId>
    requires Enabled(s, step)
  {
    match step
    case LockFails(m, granted) => if granted then Some(s.migrators[m].pc.session) else None
    case UnlockFails(m, released) => if released then None else Some(s.migrators[m].pc.session)
    case _ => None
  }

  function LeavingSteps(s: State, steps: seq<Step>, k: SessionId): nat
    requires ValidRun(s, steps)
    decreases steps
  {
    if steps == [] then 0
    else (if Leaves(s, steps[0]) == Some(k) then 1 else 0) + LeavingSteps(Next(s, steps[0]), steps[1..], k)
  }

  function LeaksOf(s: State, k: SessionId): nat {
    if k < |s.sessions| then s.sessions[k].leaks else 0
  }

  /** Only a session that lives on can have been left with the lock by the step. */
  lemma StepLeaves(s: State, step: Step, k: SessionId)
    requires Inv(s) && Enabled(s, step)
    ensures var t := Next(s, step);
            && |s.sessions| <= |t.sessions|
            && (k < |s.sessions| && t.sessions[k].alive ==> s.sessions[k].alive)
            && (k < |t.sessions| && t.sessions[k].alive ==>
                  LeaksOf(t, k) == LeaksOf(s, k) + (if Leaves(s, step) == Some(k) then 1 else 0))
  {
    match step
    case Checkout(m, reuse) =>
    case CheckoutFails(m) =>
    case Die(_) =>
    case Grant(m) => assert s.migrators[m].pc.OnSession();
    case LockFails(m, _) => assert s.migrators[m].pc.OnSession();
    case BodyEnds(m) => assert s.migrators[m].pc.OnSession();
    case UnlockReturns(m) => assert s.migrators[m].pc.OnSession();
    case UnlockFails(m, _) => assert s.migrators[m].pc.OnSession();
    case GiveBack(m) => assert s.migrators[m].pc.OnSession();
  }

  lemma {:induction false} RunLeaves(s: State, steps: seq<Step>, k: SessionId)
    requires Inv(s) && ValidRun(s, steps)
    requires k < |Run(s, steps).sessions| && Run(s, steps).sessions[k].alive
    ensures k < |s.sessions| ==> s.sessions[k].alive
    ensures LeaksOf(Run(s, steps), k) == LeaksOf(s, k) + LeavingSteps(s, steps, k)
    decreases steps
  {
    if steps != [] {
      StepKeepsInv(s, steps[0]);
      StepLeaves(s, steps[0], k);
      RunLeaves(Next(s, steps[0]), steps[1..], k);
    }
  }

  /**
   * Once all calls have finished the lock is free if and only if no session that is
   * still alive was left with it: by a lock call that failed after the server had
   * granted it, or by an unlock that failed without releasing it.
   */
  lemma LockIsFreeExactlyWithoutLeaks(n: nat, steps: seq<Step>)
    requires ValidRun(Init(n), steps)
    requires forall m :: 0 <= m < |Run(Init(n), steps).migrators| ==> Run(Init(n), steps).migrators[m].pc.Finished?
    ensures var s := Run(Init(n), steps);
            s.owner.None? <==>
              forall k :: 0 <= k < |s.sessions| && s.sessions[k].alive ==> LeavingSteps(Init(n), steps, k) == 0
  {
    RunKeepsInv(Init(n), steps);
    var s := Run(Init(n), steps);
    forall k | 0 <= k < |s.sessions|
      ensures !InUse(s, k)
      ensures s.sessions[k].alive ==> s.sessions[k].leaks == LeavingSteps(Init(n), steps, k)
    {
      if s.sessions[k].alive { RunLeaves(Init(n), steps, k); }
    }
  }

  /** A checkout hands out a live session that no other call uses, new or back in the pool, and touches no other. */
  lemma CheckoutIsExclusive(n: nat, steps: seq<Step>, m: MigratorId, reuse: SessionId)
    requires ValidRun(Init(n), steps) && Enabled(Run(Init(n), steps), Checkout(m, reuse))
    ensures var s := Run(Init(n), steps);
            var t := Next(s, Checkout(m, reuse));
            && t.migrators[m].pc.AwaitLock? && t.migrators[m].pc.session < |t.sessions|
            && var k := t.migrators[m].pc.session;
               && t.sessions[k].alive && (k < |s.sessions| ==> s.sessions[k].alive && s.sessions[k].user.None?)
               && (forall j :: 0 <= j < |t.migrators| && j != m && t.migrators[j].pc.OnSession() ==>
                     t.migrators[j].pc.session != k)
               && (forall i :: 0 <= i < |s.sessions| && i != k ==> t.sessions[i] == s.sessions[i])
  {
    RunKeepsInv(Init(n), steps);
    var s := Run(Init(n), steps);
    forall j | 0 <= j < |s.migrators| && s.migrators[j].pc.OnSession()
      ensures s.migrators[j].pc.session < |s.sessions| && s.sessions[s.migrators[j].pc.session].user == Some(j)
    {
    }
  }
}
