/** The process-wide system pool: four module variables and the calls that update them. */
module SystemPool {
  import opened Base

  /** A pool is told apart by identity: one handed in, or the n-th one built from the environment's URL. */
  datatype Pool = Injected(name: nat) | FromUrl(url: string, nth: nat)

  datatype Vars = Vars(pool: Option<Pool>, resolved: bool, explicit: bool, testOptIn: bool, built: nat)

  datatype Op =
    | Get(env: Option<string>)
    | Set(pool: Option<Pool>)
    | Reset
    | Allow(on: bool)

  const INITIAL: Vars := Vars(None, false, false, false, 0)

  function AfterGet(v: Vars, env: Option<string>): Vars {
    if v.resolved then v
    else if env == None || env == Some("") then v.(resolved := true, pool := None)
    else v.(resolved := true, pool := Some(FromUrl(env.value, v.built)), explicit := true, built := v.built + 1)
  }

  function After(v: Vars, op: Op): Vars {
    match op
    case Get(env) => AfterGet(v, env)
    case Set(pool) => v.(pool := pool, resolved := true, explicit := true)
    case Reset => v.(pool := None, resolved := false, explicit := false)
    case Allow(on) => v.(testOptIn := on)
  }

  function History(ops: seq<Op>): Vars {
    if ops == [] then INITIAL else After(History(ops[..|ops| - 1]), ops[|ops| - 1])
  }

  /** runWithSystemScope: the pool it runs on, or None when it refuses to run. */
  function ScopePool(v: Vars, env: Option<string>, passed: Pool): (Option<Pool>, Vars) {
    var v1 := AfterGet(v, env);
    if !(v1.explicit || v1.testOptIn) then (None, v1)
    else if v1.pool.Some? then (v1.pool, v1)
    else (Some(passed), v1)
  }

  // ---- the variables as a function of the calls ----

  /** Position of the last Reset, or -1: the calls after it are those that count. */
  ghost predicate LastReset(ops: seq<Op>, r: int) {
    && -1 <= r < |ops| && (r >= 0 ==> ops[r].Reset?)
    && forall j :: r < j < |ops| ==> !ops[j].Reset?
  }

  ghost predicate LastSet(ops: seq<Op>, r: int, i: int) {
    LastReset(ops, r) && r < i < |ops| && ops[i].Set? && forall j :: i < j < |ops| ==> !ops[j].Set?
  }

  ghost predicate NoSet(ops: seq<Op>, r: int) {
    LastReset(ops, r) && forall j :: r < j < |ops| ==> !ops[j].Set?
  }

  ghost predicate FirstGet(ops: seq<Op>, r: int, i: int) {
    NoSet(ops, r) && r < i < |ops| && ops[i].Get? && forall j :: r < j < i ==> !ops[j].Get?
  }

  ghost predicate NoGet(ops: seq<Op>, r: int) {
    NoSet(ops, r) && forall j :: r < j < |ops| ==> !ops[j].Get?
  }

  predicate Unset(env: Option<string>) { env == None || env == Some("") }

  lemma {:induction false} LastSetDecides(ops: seq<Op>, r: int, i: int)
    requires LastSet(ops, r, i)
    ensures History(ops).resolved && History(ops).explicit && History(ops).pool == ops[i].pool
  {
    var n := |ops| - 1;
    if i < n {
      assert LastReset(ops[..n], r);
      LastSetDecides(ops[..n], r, i);
    }
  }

  lemma {:induction false} NothingDecidesYet(ops: seq<Op>, r: int)
    requires NoGet(ops, r)
    ensures !History(ops).resolved && !History(ops).explicit && History(ops).pool == None
  {
    var n := |ops| - 1;
    if r < n {
      assert LastReset(ops[..n], r);
      NothingDecidesYet(ops[..n], r);
    }
  }

  lemma {:induction false} FirstGetDecides(ops: seq<Op>, r: int, i: int)
    requires FirstGet(ops, r, i)
    ensures var v := History(ops);
            && v.resolved
            && (Unset(ops[i].env) ==> v.pool == None && !v.explicit)
            && (!Unset(ops[i].env) ==>
                  v.pool == Some(FromUrl(ops[i].env.value, History(ops[..i]).built)) && v.explicit)
  {
    var n := |ops| - 1;
    if i == n {
      assert LastReset(ops[..n], r);
      NothingDecidesYet(ops[..n], r);
    } else {
      assert LastReset(ops[..n], r);
      FirstGetDecides(ops[..n], r, i);
      assert ops[..n][..i] == ops[..i];
    }
  }

  /** The test opt-in is whatever the last Allow said; Reset does not clear it. */
  lemma {:induction false} OptInIsLastAllow(ops: seq<Op>, i: int)
    requires -1 <= i < |ops| && (i >= 0 ==> ops[i].Allow?) && forall j :: i < j < |ops| ==> !ops[j].Allow?
    ensures History(ops).testOptIn == (i >= 0 && ops[i].on)
  {
    var n := |ops| - 1;
    if i < n {
      OptInIsLastAllow(ops[..n], i);
    }
  }

  /**
   * After any calls, where r is the last Reset: the scope runs on the last pool set
   * since, else on the pool the environment named at the first Get since (now, if
   * there was none); and it runs on the tenant pool it was passed exactly when the
   * last Set since was `undefined`, or there was no Set, that environment was blank
   * and the test opt-in holds.
   */
  lemma ScopePoolFromHistory(ops: seq<Op>, r: int, env: Option<string>, passed: Pool)
    requires LastReset(ops, r)
    ensures var v := History(ops);
            var p := ScopePool(v, env, passed).0;
            && (forall i :: LastSet(ops, r, i) ==>
                  p == if ops[i].pool.Some? then ops[i].pool else Some(passed))
            && (forall i :: FirstGet(ops, r, i) && !Unset(ops[i].env) ==>
                  p == Some(FromUrl(ops[i].env.value, History(ops[..i]).built)))
            && (forall i :: FirstGet(ops, r, i) && Unset(ops[i].env) ==>
                  p == if v.testOptIn then Some(passed) else None)
            && (NoGet(ops, r) ==>
                  p == if !Unset(env) then Some(FromUrl(env.value, v.built))
                       else if v.testOptIn then Some(passed) else None)
  {
    forall i | LastSet(ops, r, i)
      ensures History(ops).resolved && History(ops).explicit && History(ops).pool == ops[i].pool
    {
      LastSetDecides(ops, r, i);
    }
    forall i | FirstGet(ops, r, i)
      ensures var v := History(ops);
              && v.resolved
              && (Unset(ops[i].env) ==> v.pool == None && !v.explicit)
              && (!Unset(ops[i].env) ==>
                    v.pool == Some(FromUrl(ops[i].env.value, History(ops[..i]).built)) && v.explicit)
    {
      FirstGetDecides(ops, r, i);
    }
    if NoGet(ops, r) {
      NothingDecidesYet(ops, r);
    }
  }

  /** The four cases of ScopePoolFromHistory are all there are. */
  lemma {:induction false} HistoryCases(ops: seq<Op>, r: int)
    requires LastReset(ops, r)
    ensures (exists i :: LastSet(ops, r, i)) || (exists i :: FirstGet(ops, r, i)) || NoGet(ops, r)
  {
    var n := |ops| - 1;
    if r < n {
      assert LastReset(ops[..n], r);
      HistoryCases(ops[..n], r);
      if i :| LastSet(ops[..n], r, i) {
        assert LastSet(ops, r, if ops[n].Set? then n else i);
      } else if ops[n].Set? {
        assert LastSet(ops, r, n);
      } else if i :| FirstGet(ops[..n], r, i) {
        assert FirstGet(ops, r, i);
      } else if ops[n].Get? {
        assert FirstGet(ops, r, n);
      }
    }
  }

  // ---- the module as the source writes it ----

  class SystemPoolModule {
    var systemPool: Option<Pool>
    var systemPoolResolved: bool
    var systemPoolExplicitlyConfigured: bool
    var runtimePoolAsSystemForTests: bool
    var built: nat
    ghost var calls: seq<Op>

    ghost function View(): Vars
      reads this
    {
      Vars(systemPool, systemPoolResolved, systemPoolExplicitlyConfigured, runtimePoolAsSystemForTests, built)
    }

    ghost predicate Valid()
      reads this
    {
      View() == History(calls)
    }

    constructor ()
      ensures Valid() && calls == []
    {
      systemPool, systemPoolResolved, systemPoolExplicitlyConfigured := None, false, false;
      runtimePoolAsSystemForTests, built, calls := false, 0, [];
    }

    ghost method Record(op: Op)
      modifies this`calls
      ensures calls == old(calls) + [op]
      ensures History(calls) == After(History(old(calls)), op)
    {
      calls := calls + [op];
      assert calls[..|calls| - 1] == old(calls);
    }

    method GetSystemPool(env: Option<string>) returns (pool: Option<Pool>)
      requires Valid()
      modifies this
      ensures Valid() && calls == old(calls) + [Get(env)] && pool == systemPool
    {
      if !systemPoolResolved {
        systemPoolResolved := true;
        if env == None || env == Some("") {
          systemPool := None;
        } else {
          systemPool := Some(FromUrl(env.value, built));
          built := built + 1;
          systemPoolExplicitlyConfigured := true;
        }
      }
      assert View() == AfterGet(old(View()), env);
      Record(Get(env));
      pool := systemPool;
    }

    method SetSystemPool(pool: Option<Pool>)
      requires Valid()
      modifies this
      ensures Valid() && calls == old(calls) + [Set(pool)]
    {
      systemPool := pool;
      systemPoolResolved := true;
      systemPoolExplicitlyConfigured := true;
      Record(Set(pool));
    }

    method ResetSystemPool()
      requires Valid()
      modifies this
      ensures Valid() && calls == old(calls) + [Reset]
    {
      systemPool := None;
      systemPoolResolved := false;
      systemPoolExplicitlyConfigured := false;
      Record(Reset);
    }

    method AllowRuntimePoolAsSystemForTests(allow: bool)
      requires Valid()
      modifies this
      ensures Valid() && calls == old(calls) + [Allow(allow)]
    {
      runtimePoolAsSystemForTests := allow;
      Record(Allow(allow));
    }

    /** isSystemScopeRunnable and the choice of the effective pool; None is the loud failure. */
    method EffectivePool(env: Option<string>, passed: Pool) returns (pool: Option<Pool>)
      requires Valid()
      modifies this
      ensures Valid() && pool == ScopePool(History(old(calls)), env, passed).0
      ensures calls == old(calls) + [Get(env)] || calls == old(calls) + [Get(env)] + [Get(env)]
      ensures View() == ScopePool(old(View()), env, passed).1
    {
      var _ := GetSystemPool(env);
      if !(systemPoolExplicitlyConfigured || runtimePoolAsSystemForTests) {
        return None;
      }
      pool := GetSystemPool(env);
      if pool.None? {
        pool := Some(passed);
      }
    }
  }
}
