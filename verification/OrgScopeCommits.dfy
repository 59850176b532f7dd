/** What a scope makes durable: all that its own statements stored, or nothing. */
module OrgScopeCommits {
  import opened Base
  import opened Text
  import opened SystemPool
  import opened OrgScope
  import opened OrgScopeDiscipline

  // ---- what the work stores in its own transaction ----

  /** The rows whose INSERT the work saw succeed on the ambient connection, in order. */
  function Stored(w: World, amb: Option<Ambient>, depth: nat, work: Work): seq<Row>
    requires amb.Some? ==> amb.value.client < |w.clients|
    decreases work
  {
    match work
    case Insert(tag, org) =>
      if amb.Some? && InsertRow(Look(w, amb.value, depth), amb.value.client, Other(tag, org)).1 == Done
      then [Other(tag, org)] else []
    case Append(input) =>
      if amb.Some? && !Blank(input.org) && input.payloadOk
         && InsertEvent(Look(w, amb.value, depth), amb.value.client, input.org, input.run).1 == Done
      then [Event(w.nextId, input.org, input.run)] else []
    case Select(test, yes, no) =>
      if amb.None? then []
      else
        var (w1, out) := Query(Look(w, amb.value, depth), amb.value.client);
        if out == Threw then []
        else if test(Read(w1, amb.value.client)) then Stored(w1, amb, depth, yes) else Stored(w1, amb, depth, no)
    case Seq(first, then_) =>
      var (w1, out) := Exec(w, amb, depth, first);
      Stored(w, amb, depth, first) + if out == Done then Stored(w1, amb, depth, then_) else []
    case Catch(body, handler) =>
      var (w1, out) := Exec(w, amb, depth, body);
      Stored(w, amb, depth, body) + if out == Threw then Stored(w1, amb, depth, handler) else []
    case InOrg(pool, org, body) =>
      if SafeId(org) && Joins(amb, pool) && amb.value.org == Some(org) then Stored(w, amb, depth, body) else []
    case _ => []
  }

  lemma InsertStores(w: World, k: ClientId, row: Row)
    requires k < |w.clients| && w.clients[k].tx.Open?
    ensures var (w', out) := InsertRow(w, k, row);
            && w'.clients[k].tx.Open?
            && w'.clients[k].tx.rows == w.clients[k].tx.rows + if out == Done then [row] else []
  {
  }

  lemma NotifyStoresNothing(w: World, k: ClientId, n: Notify)
    requires k < |w.clients| && w.clients[k].tx.Open?
    ensures var tx' := SendNotify(w, k, n).0.clients[k].tx; tx'.Open? && tx'.rows == w.clients[k].tx.rows
  {
  }

  lemma WakeStoresNothing(w: World, k: ClientId, id: EventId, run: Option<string>)
    requires k < |w.clients| && w.clients[k].tx.Open?
    ensures var tx' := WakeListeners(w, k, id, run).0.clients[k].tx; tx'.Open? && tx'.rows == w.clients[k].tx.rows
  {
    if run.None? {
      NotifyStoresNothing(w, k, EventAppended(id));
    } else if SafeId(run.value) {
      NotifyStoresNothing(w, k, RunActivity(run.value));
      NotifyStoresNothing(SendNotify(w, k, RunActivity(run.value)).0, k, EventAppended(id));
    }
  }

  lemma AppendStores(w: World, k: ClientId, input: EventInput)
    requires k < |w.clients| && w.clients[k].tx.Open?
    ensures var tx, tx' := w.clients[k].tx, AppendEvent(w, k, input).0.clients[k].tx;
            && tx'.Open?
            && tx'.rows == tx.rows
                 + (if !Blank(input.org) && input.payloadOk && InsertEvent(w, k, input.org, input.run).1 == Done
                    then [Event(w.nextId, input.org, input.run)] else [])
  {
    if !Blank(input.org) && input.payloadOk {
      InsertStores(w, k, Event(w.nextId, input.org, input.run));
      var (w1, inserted) := InsertEvent(w, k, input.org, input.run);
      if inserted == Done {
        WakeStoresNothing(w1, k, w.nextId, input.run);
      }
    }
  }

  /** c' is the ambient connection after work that stored the given rows. */
  predicate After(c: Client, c': Client, stored: seq<Row>) {
    && c.tx.Open? && c'.tx.Open? && c'.tx.rows == c.tx.rows + stored
    && AbortedIfRefused(c, c') && c'.checkouts == c.checkouts
  }

  lemma AfterThen(c: Client, c1: Client, c2: Client, a: seq<Row>, b: seq<Row>)
    requires After(c, c1, a) && After(c1, c2, b)
    ensures After(c, c2, a + b)
  {
    assert (c.tx.rows + a) + b == c.tx.rows + (a + b);
  }

  lemma AfterNothing(c: Client)
    requires c.tx.Open?
    ensures After(c, c, [])
  {
  }

  lemma StatementStores(w: World, a: Ambient, depth: nat, work: Work)
    requires work.Insert? || work.Append?
    requires AmbientServed(w, Some(a))
    ensures var w' := Exec(w, Some(a), depth, work).0;
            a.client < |w'.clients| && After(w.clients[a.client], w'.clients[a.client], Stored(w, Some(a), depth, work))
  {
    var w0 := Look(w, a, depth);
    if work.Insert? {
      InsertOnlyTx(w0, a.client, Other(work.tag, work.org));
      InsertStores(w0, a.client, Other(work.tag, work.org));
    } else {
      AppendOnlyTx(w0, a.client, work.input);
      AppendStores(w0, a.client, work.input);
    }
  }

  lemma SelectStoresNothing(w: World, a: Ambient, depth: nat)
    requires AllTidy(w) && AmbientServed(w, Some(a))
    ensures var w' := Query(Look(w, a, depth), a.client).0;
            AmbientServed(w', Some(a)) && After(w.clients[a.client], w'.clients[a.client], [])
  {
    SelectServes(w, a, depth);
  }

  lemma OpenedStoresNothing(w: World, a: Ambient, pool: Pool, org: Option<Org>, depth: nat, body: Work)
    requires AllTidy(w) && AmbientServed(w, Some(a))
    ensures var w' := ExecOpened(w, pool, org, depth, body).0;
            a.client < |w'.clients| && w'.clients[a.client] == w.clients[a.client]
  {
    OpenedKeepsDiscipline(w, Some(a), pool, org, depth, body, Held(w.clients) - depth);
  }

  /**
   * Any work grows the transaction of its scope by exactly the rows it saw stored, and
   * leaves it aborted exactly when a query of it was rejected; scopes it opens on other
   * connections do not touch it.
   */
  lemma {:induction false} ExecStores(w: World, a: Ambient, depth: nat, work: Work)
    requires AllTidy(w) && AmbientServed(w, Some(a))
    ensures var w' := Exec(w, Some(a), depth, work).0;
            a.client < |w'.clients| && After(w.clients[a.client], w'.clients[a.client], Stored(w, Some(a), depth, work))
    decreases work
  {
    var amb, k := Some(a), a.client;
    AfterNothing(w.clients[k]);
    match work
    case Insert(_, _) => StatementStores(w, a, depth, work);
    case Append(_) => StatementStores(w, a, depth, work);
    case Select(test, yes, no) =>
      SelectServes(w, a, depth);
      SelectStoresNothing(w, a, depth);
      var (w1, out) := Query(Look(w, a, depth), k);
      if out == Done {
        var next := if test(Read(w1, k)) then yes else no;
        ExecStores(w1, a, depth, next);
        AfterThen(w.clients[k], w1.clients[k], Exec(w1, amb, depth, next).0.clients[k],
                  [], Stored(w1, amb, depth, next));
        assert [] + Stored(w1, amb, depth, next) == Stored(w1, amb, depth, next);
      }
    case Seq(first, then_) =>
      ExecStores(w, a, depth, first);
      var (w1, out) := Exec(w, amb, depth, first);
      if out == Done {
        ExecServes(w, amb, depth, first);
        ExecStores(w1, a, depth, then_);
        AfterThen(w.clients[k], w1.clients[k], Exec(w1, amb, depth, then_).0.clients[k],
                  Stored(w, amb, depth, first), Stored(w1, amb, depth, then_));
      } else {
        AfterNothing(w1.clients[k]);
        AfterThen(w.clients[k], w1.clients[k], w1.clients[k], Stored(w, amb, depth, first), []);
      }
    case Catch(body, handler) =>
      ExecStores(w, a, depth, body);
      var (w1, out) := Exec(w, amb, depth, body);
      if out == Threw {
        ExecServes(w, amb, depth, body);
        ExecStores(w1, a, depth, handler);
        AfterThen(w.clients[k], w1.clients[k], Exec(w1, amb, depth, handler).0.clients[k],
                  Stored(w, amb, depth, body), Stored(w1, amb, depth, handler));
      } else {
        AfterNothing(w1.clients[k]);
        AfterThen(w.clients[k], w1.clients[k], w1.clients[k], Stored(w, amb, depth, body), []);
      }
    case InOrg(pool, org, body) =>
      if SafeId(org) {
        if Joins(amb, pool) {
          if a.org == Some(org) { ExecStores(w, a, depth, body); }
        } else {
          OpenedStoresNothing(w, a, pool, Some(org), depth, body);
        }
      }
    case InSystem(pool, body) =>
      var (effective, vars) := ScopePool(w.vars, w.env, pool);
      if effective.Some? {
        OpenedStoresNothing(w.(vars := vars), a, effective.value, None, depth, body);
      }
    case _ =>
  }

  // ---- what becomes durable ----

  /** What the end of an opened scope makes durable, and when it reports success. */
  lemma FinishRows(w: World, k: ClientId, out: Outcome)
    requires k < |w.clients|
    ensures var (w', out') := Finish(w, k, out);
            var tx := w.clients[k].tx;
            && (out' == Done <==> out == Done && !Next(w).fails)
            && w'.rows == w.rows + (if out' == Done && tx.Open? && !tx.aborted then tx.rows else [])
            && (out' == Threw ==> w'.delivered == w.delivered)
  {
  }

  /** A query that the work issued on the connection of its scope was rejected. */
  predicate Rejected(w: World, w': World, k: ClientId) {
    k < |w.clients| && k < |w'.clients| && w'.clients[k].refused > w.clients[k].refused
  }

  /**
   * All or nothing, for any scope that opens a connection, org or system, under any
   * enclosing scope, for any work and at every failure point. What its own statements
   * stored becomes durable, whole and in order, if and only if the scope reports
   * success and none of its queries was rejected; otherwise none of it does. (w2 is
   * the world at the end of the work, with what nested opened scopes committed.)
   */
  lemma OpenedScopeIsAllOrNothing(w: World, pool: Pool, org: Option<Org>, depth: nat, body: Work)
    requires AllTidy(w)
    ensures var (w1, got) := Enter(w, pool, org);
            var (w', out) := ExecOpened(w, pool, org, depth, body);
            && (got.None? ==> out == Threw && w'.rows == w.rows)
            && (got.Some? ==>
                  var amb := Some(Ambient(got.value, pool, org));
                  var w2 := Exec(w1, amb, depth + 1, body).0;
                  w'.rows == w2.rows + if out == Done && !Rejected(w1, w2, got.value)
                                       then Stored(w1, amb, depth + 1, body) else [])
  {
    EnterKeeps(w, pool, org);
    var (w1, got) := Enter(w, pool, org);
    if got.Some? {
      var k, a := got.value, Ambient(got.value, pool, org);
      ExecStores(w1, a, depth + 1, body);
      var (w2, worked) := Exec(w1, Some(a), depth + 1, body);
      FinishRows(w2, k, worked);
      assert [] + Stored(w1, Some(a), depth + 1, body) == Stored(w1, Some(a), depth + 1, body);
    }
  }

  // ---- a condition on the work alone ----

  /** The scope a nested runWithOrgScope would join. */
  function Joinable(amb: Option<Ambient>): Option<(Pool, Org)> {
    if amb.Some? && amb.value.org.Some? then Some((amb.value.pool, amb.value.org.value)) else None
  }

  /** No statement of the scope's own transaction, joined scopes included, sits below a catch. */
  predicate Uncaught(work: Work, scope: Option<(Pool, Org)>, caught: bool) {
    match work
    case Insert(_, _) => !caught
    case Append(_) => !caught
    case Select(_, yes, no) => !caught && Uncaught(yes, scope, caught) && Uncaught(no, scope, caught)
    case Seq(a, b) => Uncaught(a, scope, caught) && Uncaught(b, scope, caught)
    case Catch(body, handler) => Uncaught(body, scope, true) && Uncaught(handler, scope, caught)
    case InOrg(pool, org, body) =>
      scope.Some? && scope.value.0 == pool && scope.value.1 == org ==> Uncaught(body, scope, caught)
    case _ => true
  }

  /** Statements whose rejection is not caught make the work throw. */
  lemma {:induction false} UncaughtRejectionThrows(w: World, a: Ambient, depth: nat, work: Work, caught: bool)
    requires AllTidy(w) && AmbientServed(w, Some(a)) && Uncaught(work, Joinable(Some(a)), caught)
    ensures var (w', out) := Exec(w, Some(a), depth, work);
            a.client < |w'.clients|
            && (out == Done || caught ==> w'.clients[a.client].refused == w.clients[a.client].refused)
    decreases work
  {
    var amb := Some(a);
    match work
    case Insert(_, _) => SuccessRejectsNothing(w, a, depth, work);
    case Append(_) => SuccessRejectsNothing(w, a, depth, work);
    case Select(test, yes, no) =>
      SelectServes(w, a, depth);
      var (w1, out) := Query(Look(w, a, depth), a.client);
      if out == Done {
        assert w1.clients[a.client].refused == w.clients[a.client].refused;
        UncaughtRejectionThrows(w1, a, depth, if test(Read(w1, a.client)) then yes else no, caught);
      }
    case Seq(first, then_) =>
      UncaughtRejectionThrows(w, a, depth, first, caught);
      ExecServes(w, amb, depth, first);
      var (w1, out) := Exec(w, amb, depth, first);
      if out == Done { UncaughtRejectionThrows(w1, a, depth, then_, caught); }
    case Catch(body, handler) =>
      UncaughtRejectionThrows(w, a, depth, body, true);
      ExecServes(w, amb, depth, body);
      var (w1, out) := Exec(w, amb, depth, body);
      if out == Threw { UncaughtRejectionThrows(w1, a, depth, handler, caught); }
    case InOrg(pool, org, body) =>
      if SafeId(org) {
        if Joins(amb, pool) {
          if a.org == Some(org) { UncaughtRejectionThrows(w, a, depth, body, caught); }
        } else {
          OpenedStoresNothing(w, a, pool, Some(org), depth, body);
        }
      }
    case InSystem(pool, body) =>
      var (effective, vars) := ScopePool(w.vars, w.env, pool);
      if effective.Some? {
        OpenedStoresNothing(w.(vars := vars), a, effective.value, None, depth, body);
      }
    case _ =>
  }

  lemma WakeSucceeds(w: World, k: ClientId, id: EventId, run: Option<string>)
    requires k < |w.clients| && WakeListeners(w, k, id, run).1 == Done
    ensures WakeListeners(w, k, id, run).0.clients[k].refused == w.clients[k].refused
  {
  }

  lemma SuccessRejectsNothing(w: World, a: Ambient, depth: nat, work: Work)
    requires (work.Insert? || work.Append?) && AmbientServed(w, Some(a))
    ensures var (w', out) := Exec(w, Some(a), depth, work);
            a.client < |w'.clients| && (out == Done ==> w'.clients[a.client].refused == w.clients[a.client].refused)
  {
    var w0 := Look(w, a, depth);
    if work.Append? {
      AppendOnlyTx(w0, a.client, work.input);
      if Exec(w, Some(a), depth, work).1 == Done {
        var w1 := InsertEvent(w0, a.client, work.input.org, work.input.run).0;
        assert w1.clients[a.client].refused == w0.clients[a.client].refused;
        WakeSucceeds(w1, a.client, w0.nextId, work.input.run);
      }
    }
  }

  /**
   * A scope whose own statements all propagate, whatever nested opened scopes catch,
   * makes all it stored durable whenever it reports success, at every failure point.
   */
  lemma SuccessfulScopeCommitsUnlessAFailureIsCaught(w: World, pool: Pool, org: Option<Org>, depth: nat, body: Work)
    requires AllTidy(w) && Uncaught(body, if org.Some? then Some((pool, org.value)) else None, false)
    ensures ExecOpened(w, pool, org, depth, body).1 == Done ==>
              var (w1, got) := Enter(w, pool, org);
              && got.Some?
              && var amb := Some(Ambient(got.value, pool, org));
                 ExecOpened(w, pool, org, depth, body).0.rows
                 == Exec(w1, amb, depth + 1, body).0.rows + Stored(w1, amb, depth + 1, body)
  {
    OpenedScopeIsAllOrNothing(w, pool, org, depth, body);
    EnterKeeps(w, pool, org);
    var (w1, got) := Enter(w, pool, org);
    if got.Some? {
      UncaughtRejectionThrows(w1, Ambient(got.value, pool, org), depth + 1, body, false);
      var (w2, worked) := Exec(w1, Some(Ambient(got.value, pool, org)), depth + 1, body);
      FinishRows(w2, got.value, worked);
    }
  }

  // ---- joining ----

  /** No scope of the tree can open a connection when it runs inside org's scope on pool. */
  predicate OnlyJoins(work: Work, pool: Pool, org: Org) {
    match work
    case Select(_, yes, no) => OnlyJoins(yes, pool, org) && OnlyJoins(no, pool, org)
    case Seq(a, b) => OnlyJoins(a, pool, org) && OnlyJoins(b, pool, org)
    case Catch(a, b) => OnlyJoins(a, pool, org) && OnlyJoins(b, pool, org)
    case InOrg(p, o, body) => p == pool && (o == org ==> OnlyJoins(body, pool, org))
    case InSystem(_, _) => false
    case _ => true
  }

  /** Joined scopes open no connection and make nothing durable themselves. */
  lemma {:induction false} JoinedScopesCommitNothing(w: World, a: Ambient, depth: nat, work: Work)
    requires AllTidy(w) && AmbientServed(w, Some(a)) && a.org.Some? && OnlyJoins(work, a.pool, a.org.value)
    ensures var w' := Exec(w, Some(a), depth, work).0;
            |w'.clients| == |w.clients| && w'.rows == w.rows && w'.delivered == w.delivered
    decreases work
  {
    match work
    case Insert(tag, org) => InsertOnlyTx(Look(w, a, depth), a.client, Other(tag, org));
    case Append(input) => AppendOnlyTx(Look(w, a, depth), a.client, input);
    case Select(test, yes, no) =>
      SelectServes(w, a, depth);
      var (w1, out) := Query(Look(w, a, depth), a.client);
      if out == Done {
        JoinedScopesCommitNothing(w1, a, depth, if test(Read(w1, a.client)) then yes else no);
      }
    case Seq(first, then_) =>
      JoinedScopesCommitNothing(w, a, depth, first);
      ExecServes(w, Some(a), depth, first);
      var (w1, out) := Exec(w, Some(a), depth, first);
      if out == Done { JoinedScopesCommitNothing(w1, a, depth, then_); }
    case Catch(body, handler) =>
      JoinedScopesCommitNothing(w, a, depth, body);
      ExecServes(w, Some(a), depth, body);
      var (w1, out) := Exec(w, Some(a), depth, body);
      if out == Threw { JoinedScopesCommitNothing(w1, a, depth, handler); }
    case InOrg(pool, org, body) =>
      if SafeId(org) && org == a.org.value { JoinedScopesCommitNothing(w, a, depth, body); }
    case _ =>
  }

  /**
   * What a joined scope writes waits in the transaction of the enclosing scope: those rows, in
   * order, and no others.
   */
  lemma JoinedScopesWriteIntoTheOuterTransaction(w: World, a: Ambient, depth: nat, work: Work)
    requires AllTidy(w) && AmbientServed(w, Some(a)) && a.org.Some? && OnlyJoins(work, a.pool, a.org.value)
    ensures var w' := Exec(w, Some(a), depth, work).0;
            && |w'.clients| == |w.clients| && w'.rows == w.rows && w'.delivered == w.delivered
            && w'.clients[a.client].checkouts == w.clients[a.client].checkouts
            && w'.clients[a.client].tx.Open?
            && w'.clients[a.client].tx.rows == w.clients[a.client].tx.rows + Stored(w, Some(a), depth, work)
  {
    JoinedScopesCommitNothing(w, a, depth, work);
    ExecStores(w, a, depth, work);
  }

  /**
   * Joined writes become durable exactly when the enclosing transaction commits: around
   * work that only joins, the durable rows grow by exactly the rows stored, in order,
   * when the enclosing scope succeeds and no query was rejected, and by nothing otherwise.
   */
  lemma JoinedWritesAreDurableWithTheOuterCommit(w: World, pool: Pool, org: Org, depth: nat, body: Work)
    requires AllTidy(w) && OnlyJoins(body, pool, org)
    ensures var (w1, got) := Enter(w, pool, Some(org));
            var (w', out) := ExecOpened(w, pool, Some(org), depth, body);
            && (got.None? ==> out == Threw && w'.rows == w.rows)
            && (got.Some? ==>
                  var amb := Some(Ambient(got.value, pool, Some(org)));
                  w'.rows == w.rows + if out == Done && !Rejected(w1, Exec(w1, amb, depth + 1, body).0, got.value)
                                      then Stored(w1, amb, depth + 1, body) else [])
  {
    OpenedScopeIsAllOrNothing(w, pool, Some(org), depth, body);
    EnterKeeps(w, pool, Some(org));
    var (w1, got) := Enter(w, pool, Some(org));
    if got.Some? {
      JoinedScopesCommitNothing(w1, Ambient(got.value, pool, Some(org)), depth + 1, body);
    }
  }
}
