/** Main results about scopes: discipline, durability and wakes, joining, tenancy of writes. */
module OrgScopeTheorems {
  import opened Base
  import opened Text
  import opened SystemPool
  import opened OrgScope
  import opened OrgScopeDiscipline
  import opened OrgScopeWakes
  import opened OrgScopeCommitLog
  import opened OrgScopeCommits

  /** Nobody is inside a scope. */
  ghost predicate Idle(w: World) {
    AllTidy(w) && forall k :: 0 <= k < |w.clients| ==> !w.clients[k].checkedOut
  }

  lemma IdleHoldsNothing(w: World)
    requires Idle(w)
    ensures Held(w.clients) == 0
  {
    HeldSame([], w.clients);
  }

  /**
   * For every work tree and every failure point: each statement runs on a connection
   * that is checked out, with an open transaction whose org setting is the ambient
   * org; one connection is held per enclosing scope that opened one; and at the end
   * every checkout was released once and no connection keeps a transaction.
   */
  lemma ScopeDiscipline(w: World, work: Work)
    requires Idle(w)
    ensures var w' := Exec(w, None, 0, work).0;
            Idle(w') && |w.seen| <= |w'.seen|
            && (forall j :: |w.seen| <= j < |w'.seen| ==>
                  var e := w'.seen[j];
                  && e.client.checkedOut && e.client.tx.Open? && e.client.tx.org == e.ambient.org
                  && e.held == e.depth)
            && (forall k :: 0 <= k < |w'.clients| ==>
                  w'.clients[k].checkouts == w'.clients[k].releases && w'.clients[k].tx.NoTx?)
  {
    IdleHoldsNothing(w);
    ExecKeepsDiscipline(w, None, 0, work, 0);
  }

  /**
   * The event ids delivered to the dispatcher, in delivery order, are the ids of the
   * durable event rows whose run id is absent or well formed, in commit order; each
   * such row's run is woken by the commit of the row, and no run is woken without a row
   * of the same commit. So all durable events are woken for if and only if none has a
   * malformed run id.
   */
  lemma DurableExactlyWhenWoken(w: World, work: Work)
    requires Idle(w) && Told(w)
    ensures var w' := Exec(w, None, 0, work).0;
            && EventIds(w'.delivered) == Announced(w'.rows)
            && RunsMatch(w'.rows, w'.delivered)
            && Logged(w, w', Commits(w, None, 0, work))
            && (EventIds(w'.delivered) == Appended(w'.rows)
                <==> forall r :: r in w'.rows && r.Event? ==> Wakeable(r))
  {
    ExecTells(w, None, 0, work);
    ExecCommits(w, None, 0, work);
    AnnouncedIsAppended(Exec(w, None, 0, work).0.rows);
  }

  // ---- appends that propagate ----

  /** No append with a malformed run id sits below a catch of its own transaction. */
  predicate Propagates(work: Work, scope: Option<(Pool, Org)>, caught: bool) {
    match work
    case Append(input) => !caught || Wakeable(Event(0, input.org, input.run))
    case Select(_, yes, no) => Propagates(yes, scope, caught) && Propagates(no, scope, caught)
    case Seq(a, b) => Propagates(a, scope, caught) && Propagates(b, scope, caught)
    case Catch(body, handler) => Propagates(body, scope, true) && Propagates(handler, scope, caught)
    case InOrg(pool, org, body) =>
      if scope.Some? && scope.value.0 == pool then scope.value.1 == org ==> Propagates(body, scope, caught)
      else Propagates(body, Some((pool, org)), false)
    case InSystem(pool, body) => Propagates(body, None, false)
    case _ => true
  }

  ghost predicate AllWakeable(rows: seq<Row>) {
    forall r :: r in rows && r.Event? ==> Wakeable(r)
  }

  ghost predicate CleanTx(tx: Tx) {
    tx.Open? && !tx.aborted ==> AllWakeable(tx.rows)
  }

  ghost predicate CleanAmbient(w: World, amb: Option<Ambient>) {
    amb.Some? ==> amb.value.client < |w.clients| && CleanTx(w.clients[amb.value.client].tx)
  }

  lemma {:induction false} ExecPropagates(w: World, amb: Option<Ambient>, depth: nat, work: Work, caught: bool)
    requires AllTidy(w) && AmbientServed(w, amb) && CleanAmbient(w, amb) && AllWakeable(w.rows)
    requires Propagates(work, Joinable(amb), caught)
    ensures var (w', out) := Exec(w, amb, depth, work);
            AllWakeable(w'.rows) && (CleanAmbient(w', amb) || (out == Threw && !caught))
    decreases work, 1
  {
    match work
    case Skip =>
    case Throw =>
    case Insert(tag, org) =>
      if amb.Some? {
        var w0 := Look(w, amb.value, depth);
        InsertTx(w0, amb.value.client, tag, org);
        InsertOnlyTx(w0, amb.value.client, Other(tag, org));
      }
    case Append(input) =>
      if amb.Some? {
        var w0 := Look(w, amb.value, depth);
        AppendTx(w0, amb.value.client, input);
        AppendOnlyTx(w0, amb.value.client, input);
      }
    case Select(test, yes, no) =>
      if amb.Some? {
        SelectServes(w, amb.value, depth);
        var (w1, out) := Query(Look(w, amb.value, depth), amb.value.client);
        if out == Done {
          ExecPropagates(w1, amb, depth, if test(Read(w1, amb.value.client)) then yes else no, caught);
        }
      }
    case Seq(first, then_) =>
      ExecPropagates(w, amb, depth, first, caught);
      ExecServes(w, amb, depth, first);
      var (w1, out) := Exec(w, amb, depth, first);
      if out == Done { ExecPropagates(w1, amb, depth, then_, caught); }
    case Catch(body, handler) =>
      ExecPropagates(w, amb, depth, body, true);
      ExecServes(w, amb, depth, body);
      var (w1, out) := Exec(w, amb, depth, body);
      if out == Threw { ExecPropagates(w1, amb, depth, handler, caught); }
    case InOrg(pool, org, body) =>
      if SafeId(org) {
        if Joins(amb, pool) {
          if amb.value.org == Some(org) { ExecPropagates(w, amb, depth, body, caught); }
        } else {
          OpenedPropagates(w, amb, pool, Some(org), depth, body);
        }
      }
    case InSystem(pool, body) =>
      var (effective, vars) := ScopePool(w.vars, w.env, pool);
      if effective.Some? {
        OpenedPropagates(w.(vars := vars), amb, effective.value, None, depth, body);
      }
  }

  lemma FinishPropagates(w: World, k: ClientId, out: Outcome)
    requires k < |w.clients| && AllWakeable(w.rows) && (CleanTx(w.clients[k].tx) || out == Threw)
    ensures AllWakeable(Finish(w, k, out).0.rows)
  {
    FinishRows(w, k, out);
  }

  lemma {:induction false} OpenedPropagates(w: World, amb: Option<Ambient>, pool: Pool, org: Option<Org>,
        depth: nat, body: Work)
    requires AllTidy(w) && AmbientServed(w, amb) && CleanAmbient(w, amb) && AllWakeable(w.rows)
    requires Propagates(body, if org.Some? then Some((pool, org.value)) else None, false)
    ensures var w' := ExecOpened(w, pool, org, depth, body).0;
            AllWakeable(w'.rows) && CleanAmbient(w', amb)
    decreases body, 2
  {
    EnterKeeps(w, pool, org);
    var (w1, got) := Enter(w, pool, org);
    if got.Some? {
      var a := Ambient(got.value, pool, org);
      ExecPropagates(w1, Some(a), depth + 1, body, false);
      FinishPropagates(Exec(w1, Some(a), depth + 1, body).0, got.value, Exec(w1, Some(a), depth + 1, body).1);
    }
    if amb.Some? {
      OpenedKeepsDiscipline(w, amb, pool, org, depth, body, Held(w.clients) - depth);
    }
  }

  /** When no malformed append is caught inside its transaction, every durable event is woken for. */
  lemma PropagatedAppendsAreAllWoken(w: World, work: Work)
    requires Idle(w) && Told(w) && AllWakeable(w.rows) && Propagates(work, None, false)
    ensures var w' := Exec(w, None, 0, work).0; EventIds(w'.delivered) == Appended(w'.rows)
  {
    ExecPropagates(w, None, 0, work, false);
    DurableExactlyWhenWoken(w, work);
  }

  // ---- which scopes are rejected ----

  /** A different org directly under an org scope of the same pool is rejected before any query or checkout. */
  lemma OtherOrgIsRejectedUntouched(w: World, a: Ambient, depth: nat, org: Org, body: Work)
    requires AmbientServed(w, Some(a)) && a.org.Some? && a.org != Some(org)
    ensures Exec(w, Some(a), depth, InOrg(a.pool, org, body)) == (w, Threw)
  {
  }

  /** The same connections, each checked out as often. */
  predicate SameCheckouts(w: World, w': World) {
    && |w'.clients| == |w.clients|
    && forall k :: 0 <= k < |w.clients| ==> w'.clients[k].checkouts == w.clients[k].checkouts
  }

  lemma FinishChecksOutNothing(w: World, k: ClientId, out: Outcome)
    requires k < |w.clients|
    ensures SameCheckouts(w, Finish(w, k, out).0)
  {
  }

  lemma BackOutChecksOutNothing(w: World, k: ClientId)
    requires k < |w.clients|
    ensures SameCheckouts(w, Release(Rollback(w, k), k))
  {
  }

  lemma SetLocalChecksOutNothing(w: World, k: ClientId, org: Option<Org>)
    requires k < |w.clients|
    ensures SameCheckouts(w, SetLocal(w, k, org).0)
  {
  }

  /** One checkout more, or one failed query of the tape gone. */
  predicate Traced(w: World, w': World) {
    || |w'.clients| > |w.clients|
    || (exists k :: 0 <= k < |w.clients| <= |w'.clients| && w'.clients[k].checkouts > w.clients[k].checkouts)
    || |w'.tape| < |w.tape|
  }

  lemma TraceStays(w: World, w1: World, w2: World)
    requires Traced(w, w1) && SameCheckouts(w1, w2) && |w2.tape| <= |w1.tape|
    ensures Traced(w, w2)
  {
    if k :| 0 <= k < |w.clients| <= |w1.clients| && w1.clients[k].checkouts > w.clients[k].checkouts {
      assert w2.clients[k].checkouts == w1.clients[k].checkouts;
    }
  }

  lemma CheckoutLeavesATrace(w: World, pool: Pool)
    ensures Traced(w, Checkout(w, pool).0)
  {
    var (w1, got) := Checkout(w, pool);
    if got.Some? && got.value < |w.clients| {
      assert w1.clients[got.value].checkouts > w.clients[got.value].checkouts;
    }
  }

  lemma EnterLeavesATrace(w: World, pool: Pool, org: Option<Org>)
    ensures Traced(w, Enter(w, pool, org).0)
  {
    CheckoutLeavesATrace(w, pool);
    var (w1, got) := Checkout(w, pool);
    if got.Some? {
      var k := got.value;
      var (w2, begun) := Begin(w1, k);
      assert SameCheckouts(w1, w2);
      TraceStays(w, w1, w2);
      if begun == Threw {
        BackOutChecksOutNothing(w2, k);
        TraceStays(w, w2, Release(Rollback(w2, k), k));
      } else {
        SetLocalChecksOutNothing(w2, k, org);
        var (w3, set_) := SetLocal(w2, k, org);
        TraceStays(w, w2, w3);
        if set_ == Threw {
          BackOutChecksOutNothing(w3, k);
          TraceStays(w, w3, Release(Rollback(w3, k), k));
        }
      }
    }
  }

  lemma FinishKeepsTrace(w: World, w1: World, k: ClientId)
    requires Traced(w, w1) && k < |w1.clients|
    ensures Traced(w, Finish(w1, k, Done).0)
  {
    FinishChecksOutNothing(w1, k, Done);
    TraceStays(w, w1, Finish(w1, k, Done).0);
  }

  /** Opening a scope never leaves the world as it was, even around no work. */
  lemma OpenedIsNotUntouched(w: World, pool: Pool, org: Option<Org>, depth: nat)
    ensures ExecOpened(w, pool, org, depth, Skip).0 != w
  {
    EnterLeavesATrace(w, pool, org);
    var (w1, got) := Enter(w, pool, org);
    if got.Some? {
      FinishKeepsTrace(w, w1, got.value);
      assert ExecOpened(w, pool, org, depth, Skip) == Finish(w1, got.value, Done);
    }
    assert Traced(w, ExecOpened(w, pool, org, depth, Skip).0) && !Traced(w, w);
  }

  /**
   * An org scope is rejected with the world untouched, whatever its work, if and only if
   * the org id is malformed or the innermost scope is an org scope of the same pool under
   * another org: scopes further out are not looked at.
   */
  lemma RejectedExactlyByTheInnermostScope(w: World, amb: Option<Ambient>, depth: nat, pool: Pool, org: Org)
    requires AmbientServed(w, amb)
    ensures (forall body :: Exec(w, amb, depth, InOrg(pool, org, body)) == (w, Threw))
            <==> !SafeId(org) || (Joins(amb, pool) && amb.value.org != Some(org))
  {
    if !SafeId(org) {
      forall body ensures Exec(w, amb, depth, InOrg(pool, org, body)) == (w, Threw) {
      }
    } else if Joins(amb, pool) {
      if amb.value.org == Some(org) {
        assert Exec(w, amb, depth, InOrg(pool, org, Skip)) == (w, Done);
      } else {
        forall body ensures Exec(w, amb, depth, InOrg(pool, org, body)) == (w, Threw) {
          OtherOrgIsRejectedUntouched(w, amb.value, depth, org, body);
        }
      }
    } else {
      OpenedIsNotUntouched(w, pool, Some(org), depth);
      assert Exec(w, amb, depth, InOrg(pool, org, Skip)) == ExecOpened(w, pool, Some(org), depth, Skip);
    }
  }

  lemma NothingFailsToEnter(w: World, pool: Pool, org: Org)
    requires AllTidy(w) && w.tape == []
    ensures var (w1, got) := Enter(w, pool, Some(org)); got.Some? && w1.tape == []
  {
  }

  /**
   * So any scope in between that does not join the outer pool hides the outer org, a
   * system scope or an org scope of another pool alike: a second org's scope opens on
   * the same pool while the first org's transaction is open, and commits before it.
   */
  lemma ScopeInBetweenHidesTheOuterOrg(w: World, outer: Ambient, inner: Ambient, depth: nat, org: Org, tag: nat)
    requires AllTidy(w) && AmbientServed(w, Some(outer)) && AmbientServed(w, Some(inner)) && w.tape == []
    requires outer.org.Some? && outer.org != Some(org) && !Joins(Some(inner), outer.pool) && SafeId(org)
    ensures var (w', out) := Exec(w, Some(inner), depth, InOrg(outer.pool, org, Insert(tag, org)));
            && out == Done && w'.rows == w.rows + [Other(tag, org)]
            && AmbientServed(w', Some(outer))
  {
    NothingFailsToEnter(w, outer.pool, org);
    EnterKeeps(w, outer.pool, Some(org));
    var (w1, got) := Enter(w, outer.pool, Some(org));
    var k := got.value;
    var a := Ambient(k, outer.pool, Some(org));
    var w2 := Exec(w1, Some(a), depth + 1, Insert(tag, org)).0;
    assert w2.clients[k].tx == Open(Some(org), false, [Other(tag, org)], []) && w2.tape == [] && w2.rows == w.rows by {
      assert [] + [Other(tag, org)] == [Other(tag, org)];
    }
    FinishRows(w2, k, Done);
    OpenedKeepsDiscipline(w, Some(outer), outer.pool, Some(org), depth, Insert(tag, org), Held(w.clients) - depth);
  }

  // ---- tenancy of durable rows ----

  /**
   * Orgs whose rows the work may write. `free` says that the statements run on a
   * bypassing connection, or on that of a system scope, where any row's org counts;
   * inside an org scope of another pool only the scope's own org does.
   */
  function WritableOrgs(work: Work, bypass: set<Pool>, free: bool): set<Org> {
    match work
    case Insert(_, org) => if free then {org} else {}
    case Append(input) => if free then {input.org} else {}
    case Select(_, yes, no) => WritableOrgs(yes, bypass, free) + WritableOrgs(no, bypass, free)
    case Seq(a, b) => WritableOrgs(a, bypass, free) + WritableOrgs(b, bypass, free)
    case Catch(a, b) => WritableOrgs(a, bypass, free) + WritableOrgs(b, bypass, free)
    case InOrg(pool, org, body) => {org} + WritableOrgs(body, bypass, pool in bypass)
    case InSystem(_, body) => WritableOrgs(body, bypass, true)
    case _ => {}
  }

  /** A transaction that may still commit holds only rows of these orgs. */
  ghost predicate OwnRows(tx: Tx, orgs: set<Org>) {
    tx.Open? && !tx.aborted ==> forall r :: r in tx.rows ==> r.org in orgs
  }

  /** Only rows of these orgs have been added, and the ambient connection writes no others unless it is free. */
  ghost predicate Confined(w: World, amb: Option<Ambient>, orgs: set<Org>, base: seq<Row>, free: bool) {
    && (forall r :: r in w.rows ==> r in base || r.org in orgs)
    && (amb.Some? ==> && amb.value.client < |w.clients| && OwnRows(w.clients[amb.value.client].tx, orgs)
                      && (free || (amb.value.pool !in w.bypass
                                   && (amb.value.org.Some? ==> amb.value.org.value in orgs))))
  }

  lemma StatementConfined(w: World, a: Ambient, depth: nat, work: Work, orgs: set<Org>, base: seq<Row>, free: bool)
    requires work.Insert? || work.Append?
    requires AmbientServed(w, Some(a)) && Confined(w, Some(a), orgs, base, free)
    requires WritableOrgs(work, w.bypass, free) <= orgs
    ensures var w' := Exec(w, Some(a), depth, work).0; Confined(w', Some(a), orgs, base, free) && w'.bypass == w.bypass
  {
    var w0 := Look(w, a, depth);
    if work.Insert? {
      InsertTx(w0, a.client, work.tag, work.org);
      InsertOnlyTx(w0, a.client, Other(work.tag, work.org));
    } else {
      AppendTx(w0, a.client, work.input);
      AppendOnlyTx(w0, a.client, work.input);
    }
  }

  lemma {:induction false} ExecConfined(w: World, amb: Option<Ambient>, depth: nat, work: Work, orgs: set<Org>,
        base: seq<Row>, free: bool)
    requires AllTidy(w) && AmbientServed(w, amb) && Confined(w, amb, orgs, base, free)
    requires WritableOrgs(work, w.bypass, free) <= orgs
    ensures var w' := Exec(w, amb, depth, work).0; Confined(w', amb, orgs, base, free) && w'.bypass == w.bypass
    decreases work, 1
  {
    match work
    case Skip =>
    case Throw =>
    case Insert(_, _) =>
      if amb.Some? { StatementConfined(w, amb.value, depth, work, orgs, base, free); }
    case Append(_) =>
      if amb.Some? { StatementConfined(w, amb.value, depth, work, orgs, base, free); }
    case Select(test, yes, no) =>
      if amb.Some? {
        SelectServes(w, amb.value, depth);
        var (w1, out) := Query(Look(w, amb.value, depth), amb.value.client);
        if out == Done {
          ExecConfined(w1, amb, depth, if test(Read(w1, amb.value.client)) then yes else no, orgs, base, free);
        }
      }
    case Seq(first, then_) =>
      ExecConfined(w, amb, depth, first, orgs, base, free);
      ExecServes(w, amb, depth, first);
      var (w1, out) := Exec(w, amb, depth, first);
      if out == Done { ExecConfined(w1, amb, depth, then_, orgs, base, free); }
    case Catch(body, handler) =>
      ExecConfined(w, amb, depth, body, orgs, base, free);
      ExecServes(w, amb, depth, body);
      var (w1, out) := Exec(w, amb, depth, body);
      if out == Threw { ExecConfined(w1, amb, depth, handler, orgs, base, free); }
    case InOrg(pool, org, body) =>
      if SafeId(org) {
        if Joins(amb, pool) {
          if amb.value.org == Some(org) {
            ExecConfined(w, amb, depth, body, orgs, base, pool in w.bypass);
          }
        } else {
          OpenedConfined(w, amb, pool, Some(org), depth, body, orgs, base, free);
        }
      }
    case InSystem(pool, body) =>
      var (effective, vars) := ScopePool(w.vars, w.env, pool);
      if effective.Some? {
        OpenedConfined(w.(vars := vars), amb, effective.value, None, depth, body, orgs, base, free);
      }
  }

  lemma FinishConfined(w: World, a: Ambient, out: Outcome, orgs: set<Org>, base: seq<Row>, free: bool)
    requires AmbientServed(w, Some(a)) && Confined(w, Some(a), orgs, base, free)
    ensures var w' := Finish(w, a.client, out).0;
            w'.bypass == w.bypass && forall r :: r in w'.rows ==> r in base || r.org in orgs
  {
    FinishRows(w, a.client, out);
  }

  lemma {:induction false} OpenedConfined(w: World, amb: Option<Ambient>, pool: Pool, org: Option<Org>,
        depth: nat, body: Work, orgs: set<Org>, base: seq<Row>, free: bool)
    requires AllTidy(w) && AmbientServed(w, amb) && Confined(w, amb, orgs, base, free)
    requires WritableOrgs(body, w.bypass, org.None? || pool in w.bypass) <= orgs
    requires org.Some? ==> org.value in orgs
    ensures var w' := ExecOpened(w, pool, org, depth, body).0;
            Confined(w', amb, orgs, base, free) && w'.bypass == w.bypass
    decreases body, 2
  {
    EnterKeeps(w, pool, org);
    var (w1, got) := Enter(w, pool, org);
    if got.Some? {
      var a := Ambient(got.value, pool, org);
      var inside := org.None? || pool in w.bypass;
      ExecConfined(w1, Some(a), depth + 1, body, orgs, base, inside);
      ExecServes(w1, Some(a), depth + 1, body);
      var (w2, out) := Exec(w1, Some(a), depth + 1, body);
      FinishConfined(w2, a, out, orgs, base, inside);
    }
    if amb.Some? {
      OpenedKeepsDiscipline(w, amb, pool, org, depth, body, Held(w.clients) - depth);
    }
  }

  /** Whatever the database held and whichever pools bypass the policy, work adds rows of its writable orgs only. */
  lemma DurableRowsAreOfWritableOrgs(w: World, work: Work)
    requires Idle(w)
    ensures forall r :: r in Exec(w, None, 0, work).0.rows ==>
              r in w.rows || r.org in WritableOrgs(work, w.bypass, false)
  {
    ExecConfined(w, None, 0, work, WritableOrgs(work, w.bypass, false), w.rows, false);
  }

  /** Orgs a tree opens or joins scopes for. */
  function Orgs(work: Work): set<Org> {
    match work
    case Select(_, yes, no) => Orgs(yes) + Orgs(no)
    case Seq(a, b) => Orgs(a) + Orgs(b)
    case Catch(a, b) => Orgs(a) + Orgs(b)
    case InOrg(_, org, body) => {org} + Orgs(body)
    case InSystem(_, body) => Orgs(body)
    case _ => {}
  }

  /** The tree opens no system scope, and none of its org scopes is on a pool whose role bypasses the policy. */
  predicate UnderThePolicy(work: Work, bypass: set<Pool>) {
    match work
    case Select(_, yes, no) => UnderThePolicy(yes, bypass) && UnderThePolicy(no, bypass)
    case Seq(a, b) => UnderThePolicy(a, bypass) && UnderThePolicy(b, bypass)
    case Catch(a, b) => UnderThePolicy(a, bypass) && UnderThePolicy(b, bypass)
    case InOrg(pool, _, body) => pool !in bypass && UnderThePolicy(body, bypass)
    case InSystem(_, _) => false
    case _ => true
  }

  lemma {:induction false} OnlyNamedOrgsAreWritable(work: Work, bypass: set<Pool>)
    requires UnderThePolicy(work, bypass)
    ensures WritableOrgs(work, bypass, false) <= Orgs(work)
  {
    match work
    case Select(_, a, b) =>
      OnlyNamedOrgsAreWritable(a, bypass);
      OnlyNamedOrgsAreWritable(b, bypass);
    case Seq(a, b) =>
      OnlyNamedOrgsAreWritable(a, bypass);
      OnlyNamedOrgsAreWritable(b, bypass);
    case Catch(a, b) =>
      OnlyNamedOrgsAreWritable(a, bypass);
      OnlyNamedOrgsAreWritable(b, bypass);
    case InOrg(_, _, body) => OnlyNamedOrgsAreWritable(body, bypass);
    case _ =>
  }

  /**
   * Beside a configured system pool and on a database that already holds rows: work under
   * the policy whose scopes name some orgs makes rows of no other org durable.
   */
  lemma DurableRowsStayInTheNamedOrgs(w: World, work: Work)
    requires Idle(w) && UnderThePolicy(work, w.bypass)
    ensures forall r :: r in Exec(w, None, 0, work).0.rows ==> r in w.rows || r.org in Orgs(work)
  {
    DurableRowsAreOfWritableOrgs(w, work);
    OnlyNamedOrgsAreWritable(work, w.bypass);
  }

  // ---- concrete runs ----

  const TENANT: Pool := Injected(0)
  const START: World := World([], [], [], 1, [], {}, INITIAL, None, [])

  const IN_A: Ambient := Ambient(0, TENANT, Some("org_a"))

  /** The world inside a first scope for org_a, whose transaction holds the given rows. */
  function Inside(rows: seq<Row>, aborted: bool, nextId: EventId, seen: seq<Seen>): World {
    var refused := if aborted then 1 else 0;
    START.(clients := [Client(TENANT, Open(Some("org_a"), aborted, rows, []), true, false, 1, 0, refused)],
           nextId := nextId, seen := seen)
  }

  lemma FirstScopeOpens()
    ensures SafeId("org_a") && Enter(START, TENANT, Some("org_a")) == (Inside([], false, 1, []), Some(0))
  {
    assert SafeChar('o') && SafeChar('r') && SafeChar('g') && SafeChar('_') && SafeChar('a');
    var (w1, got) := Checkout(START, TENANT);
    assert w1 == START.(clients := [Client(TENANT, NoTx, true, false, 1, 0, 0)]) && got == Some(0);
    var (w2, begun) := Begin(w1, 0);
    assert w2.clients == [Client(TENANT, Open(None, false, [], []), true, false, 1, 0, 0)] && begun == Done;
    var (w3, set_) := SetLocal(w2, 0, Some("org_a"));
    assert w3.clients == [Client(TENANT, Open(Some("org_a"), false, [], []), true, false, 1, 0, 0)] && set_ == Done;
  }

  lemma FirstScopeFinishes(rows: seq<Row>, aborted: bool, nextId: EventId, seen: seq<Seen>)
    ensures var (w, out) := Finish(Inside(rows, aborted, nextId, seen), 0, Done);
            out == Done && w.rows == (if aborted then [] else rows) && w.delivered == []
  {
  }

  /** A scope for org_a around work whose effect inside the scope is known. */
  lemma RunInA(work: Work, rows: seq<Row>, aborted: bool, nextId: EventId, seen: seq<Seen>)
    requires Exec(Inside([], false, 1, []), Some(IN_A), 1, work) == (Inside(rows, aborted, nextId, seen), Done)
    ensures var (w, out) := Exec(START, None, 0, InOrg(TENANT, "org_a", work));
            out == Done && w.rows == (if aborted then [] else rows) && w.delivered == []
  {
    FirstScopeOpens();
    FirstScopeFinishes(rows, aborted, nextId, seen);
  }

  lemma InsertInside(rows: seq<Row>, nextId: EventId, seen: seq<Seen>, row: Row)
    ensures InsertRow(Inside(rows, false, nextId, seen), 0, row)
         == if row.org == "org_a" then (Inside(rows + [row], false, nextId, seen), Done)
            else (Inside(rows, true, nextId, seen), Threw)
  {
    var w := Inside(rows, false, nextId, seen);
    assert SetTx(w, 0, AddRow(w.clients[0].tx, row)) == Inside(rows + [row], false, nextId, seen);
    assert Refuse(w, 0) == Inside(rows, true, nextId, seen);
  }

  /**
   * Why the append must propagate: an append whose run id has a space throws after its
   * INSERT without failing a query; caught inside the scope, the row commits unheard.
   */
  lemma SwallowedAppendIsSilent()
    ensures var work := InOrg(TENANT, "org_a", Catch(Append(EventInput("org_a", Some("run 1"), true)), Skip));
            var (w, out) := Exec(START, None, 0, work);
            out == Done && w.rows == [Event(1, "org_a", Some("run 1"))] && w.delivered == []
  {
    var input := EventInput("org_a", Some("run 1"), true);
    assert !IsSpace("org_a"[0]);
    assert "run 1"[3] == ' ' && !SafeId("run 1");
    var row := Event(1, "org_a", Some("run 1"));
    var w1 := Inside([], false, 1, []);
    var seen := Look(w1, IN_A, 1).seen;
    InsertInside([], 1, seen, row);
    assert [] + [row] == [row];
    assert InsertEvent(Inside([], false, 1, seen), 0, "org_a", Some("run 1")) == (Inside([row], false, 2, seen), Done);
    assert Exec(w1, Some(IN_A), 1, Append(input)) == (Inside([row], false, 2, seen), Threw);
    RunInA(Catch(Append(input), Skip), [row], false, 2, seen);
  }

  /** A caught failure loses the scope's earlier write, and the scope still reports success. */
  lemma CaughtFailureLosesTheScope()
    ensures var work := InOrg(TENANT, "org_a", Seq(Insert(1, "org_a"), Catch(Insert(2, "org_b"), Skip)));
            var (w, out) := Exec(START, None, 0, work);
            out == Done && w.rows == []
  {
    assert "org_a"[4] != "org_b"[4];
    var row := Other(1, "org_a");
    var w1 := Inside([], false, 1, []);
    var seen1 := Look(w1, IN_A, 1).seen;
    InsertInside([], 1, seen1, row);
    assert [] + [row] == [row];
    var w2 := Inside([row], false, 1, seen1);
    assert Exec(w1, Some(IN_A), 1, Insert(1, "org_a")) == (w2, Done);
    var seen2 := Look(w2, IN_A, 1).seen;
    InsertInside([row], 1, seen2, Other(2, "org_b"));
    assert Exec(w2, Some(IN_A), 1, Insert(2, "org_b")) == (Inside([row], true, 1, seen2), Threw);
    assert Exec(w2, Some(IN_A), 1, Catch(Insert(2, "org_b"), Skip)) == (Inside([row], true, 1, seen2), Done);
    RunInA(Seq(Insert(1, "org_a"), Catch(Insert(2, "org_b"), Skip)), [row], true, 1, seen2);
  }
}
