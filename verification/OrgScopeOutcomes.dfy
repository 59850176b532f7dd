/** Exactly when the statements and scopes succeed: what may fail them, and nothing else does. */
module OrgScopeOutcomes {
  import opened Base
  import opened Text
  import opened SystemPool
  import opened OrgScope
  import opened OrgScopeCommitLog
  import opened OrgScopeCommits
  import opened OrgScopeDiscipline

  /** None of the next n queries fails by itself. */
  predicate NextHold(w: World, n: nat) {
    forall i :: 0 <= i < n && i < |w.tape| ==> !w.tape[i].fails
  }

  // ---- statements ----

  /** An INSERT succeeds exactly in an unaborted transaction set to the row's org, or on a bypassing pool. */
  lemma InsertSucceedsExactly(w: World, k: ClientId, row: Row)
    requires k < |w.clients| && w.clients[k].tx.Open?
    ensures var (w', out) := InsertRow(w, k, row);
            var tx, tx' := w.clients[k].tx, w'.clients[k].tx;
            && (out == Done <==>
                  NextHold(w, 1) && !tx.aborted && (w.clients[k].pool in w.bypass || tx.org == Some(row.org)))
            && (if out == Done then tx' == tx.(rows := tx.rows + [row]) else tx' == tx.(aborted := true))
  {
  }

  lemma NotifySucceedsExactly(w: World, k: ClientId, n: Notify)
    requires k < |w.clients| && w.clients[k].tx.Open?
    ensures var (w', out) := SendNotify(w, k, n);
            var tx, tx' := w.clients[k].tx, w'.clients[k].tx;
            && (out == Done <==> NextHold(w, 1) && !tx.aborted)
            && (if out == Done then tx' == tx.(notifies := tx.notifies + [n]) else tx' == tx.(aborted := true))
            && w'.tape == (if w.tape == [] then [] else w.tape[1..])
  {
  }

  /** How many queries the append of an event with this run makes. */
  function Queries(run: Option<string>): nat {
    if run.Some? then 3 else 2
  }

  lemma WakeSucceedsExactly(w: World, k: ClientId, id: EventId, run: Option<string>)
    requires k < |w.clients| && w.clients[k].tx.Open?
    ensures WakeListeners(w, k, id, run).1 == Done <==>
              NextHold(w, Queries(run) - 1) && !w.clients[k].tx.aborted && (run.Some? ==> SafeId(run.value))
  {
    if run.None? {
      NotifySucceedsExactly(w, k, EventAppended(id));
    } else if SafeId(run.value) {
      NotifySucceedsExactly(w, k, RunActivity(run.value));
      var (w1, woken) := SendNotify(w, k, RunActivity(run.value));
      NotifySucceedsExactly(w1, k, EventAppended(id));
      assert woken == Done ==> (NextHold(w, 2) <==> NextHold(w1, 1));
    }
  }

  /**
   * An append succeeds if and only if the org is not blank, the payload parses, the run
   * id is absent or well formed, the policy admits the row, the transaction is not
   * aborted and none of its two or three queries fails. A blank org or a bad payload
   * is refused before any query.
   */
  lemma AppendSucceedsExactly(w: World, k: ClientId, input: EventInput)
    requires k < |w.clients| && w.clients[k].tx.Open?
    ensures var (w', out) := AppendEvent(w, k, input);
            && (out == Done <==>
                  && !Blank(input.org) && input.payloadOk && (input.run.Some? ==> SafeId(input.run.value))
                  && (w.clients[k].pool in w.bypass || w.clients[k].tx.org == Some(input.org))
                  && !w.clients[k].tx.aborted && NextHold(w, Queries(input.run)))
            && (Blank(input.org) || !input.payloadOk ==> (w', out) == (w, Threw))
  {
    if !Blank(input.org) && input.payloadOk {
      InsertSucceedsExactly(w, k, Event(w.nextId, input.org, input.run));
      var (w1, inserted) := InsertEvent(w, k, input.org, input.run);
      if inserted == Done {
        WakeSucceedsExactly(w1, k, w.nextId, input.run);
        assert w1.tape == if w.tape == [] then [] else w.tape[1..];
        assert NextHold(w, Queries(input.run)) <==> NextHold(w1, Queries(input.run) - 1) by {
          if NextHold(w1, Queries(input.run) - 1) {
            forall i | 0 <= i < Queries(input.run) && i < |w.tape| ensures !w.tape[i].fails {
              if i > 0 { assert w1.tape[i - 1] == w.tape[i]; }
            }
          }
        }
      }
    }
  }

  /** What a SELECT shows is what Read gives, whenever it succeeds, and it changes no row. */
  lemma SelectSucceedsExactly(w: World, k: ClientId)
    requires k < |w.clients| && w.clients[k].tx.Open?
    ensures var (w', out) := Query(w, k);
            && (out == Done <==> NextHold(w, 1) && !w.clients[k].tx.aborted)
            && Read(w', k) == Read(w, k)
            && w'.clients[k].tx == (if out == Done then w.clients[k].tx else w.clients[k].tx.(aborted := true))
  {
    var c, c' := w.clients[k], Query(w, k).0.clients[k];
    ShownAlike(c, c', w.bypass, w.rows + c.tx.rows);
  }

  lemma {:induction false} ShownAlike(c: Client, c': Client, bypass: set<Pool>, rows: seq<Row>)
    requires c.pool == c'.pool && c.tx.Open? && c'.tx.Open? && c.tx.org == c'.tx.org
    ensures Shown(c', bypass, rows) == Shown(c, bypass, rows)
  {
    if rows != [] {
      ShownAlike(c, c', bypass, rows[1..]);
    }
  }

  /** In an aborted transaction nothing is stored any more, whatever the work does and catches. */
  lemma {:induction false} AbortedScopeStoresNothing(w: World, a: Ambient, depth: nat, work: Work)
    requires AllTidy(w) && AmbientServed(w, Some(a)) && w.clients[a.client].tx.aborted
    ensures Stored(w, Some(a), depth, work) == []
    ensures work.Insert? || work.Append? || work.Select? ==> Exec(w, Some(a), depth, work).1 == Threw
    decreases work
  {
    var amb := Some(a);
    match work
    case Seq(first, then_) =>
      AbortedScopeStoresNothing(w, a, depth, first);
      StaysAborted(w, a, depth, first);
      var (w1, out) := Exec(w, amb, depth, first);
      if out == Done { AbortedScopeStoresNothing(w1, a, depth, then_); }
    case Catch(body, handler) =>
      AbortedScopeStoresNothing(w, a, depth, body);
      StaysAborted(w, a, depth, body);
      var (w1, out) := Exec(w, amb, depth, body);
      if out == Threw { AbortedScopeStoresNothing(w1, a, depth, handler); }
    case InOrg(pool, org, body) =>
      if SafeId(org) && Joins(amb, pool) && a.org == Some(org) { AbortedScopeStoresNothing(w, a, depth, body); }
    case _ =>
  }

  lemma StaysAborted(w: World, a: Ambient, depth: nat, work: Work)
    requires AllTidy(w) && AmbientServed(w, Some(a)) && w.clients[a.client].tx.aborted
    ensures var w' := Exec(w, Some(a), depth, work).0;
            AllTidy(w') && AmbientServed(w', Some(a)) && w'.clients[a.client].tx.aborted
  {
    ExecServes(w, Some(a), depth, work);
    ExecStores(w, a, depth, work);
  }

  // ---- scopes ----

  /** A scope opens exactly when the checkout, BEGIN and, for an org scope, SET LOCAL succeed. */
  lemma EnterSucceedsExactly(w: World, pool: Pool, org: Option<Org>)
    ensures Enter(w, pool, org).1.Some? <==> NextHold(w, if org.Some? then 3 else 2)
  {
    var (w1, got) := Checkout(w, pool);
    if got.Some? {
      var (w2, begun) := Begin(w1, got.value);
      assert w1.tape == (if w.tape == [] then [] else w.tape[1..]);
      assert w2.tape == (if w1.tape == [] then [] else w1.tape[1..]);
      assert forall i :: 0 <= i < |w2.tape| ==> w2.tape[i] == w.tape[i + 2];
      assert |w.tape| >= 2 ==> w1.tape[0] == w.tape[1];
      if begun == Done && org.Some? {
        assert !w2.clients[got.value].tx.aborted;
        assert SetLocal(w2, got.value, org).1 == Done <==> !Next(w2).fails;
      }
    }
  }

  /** The work of an opened scope runs on a connection of its pool, for its org, or for none in a system scope. */
  lemma OpenedScopeServesItsWork(w: World, pool: Pool, org: Option<Org>, depth: nat, test: seq<Row> -> bool)
    requires AllTidy(w)
    ensures var w' := ExecOpened(w, pool, org, depth, Select(test, Skip, Skip)).0;
            && (NextHold(w, if org.Some? then 3 else 2) <==> |w'.seen| == |w.seen| + 1)
            && (NextHold(w, if org.Some? then 3 else 2) ==>
                  var e := w'.seen[|w.seen|];
                  e.ambient.pool == pool && e.ambient.org == org && e.client.pool == pool && e.client.tx.Open?
                  && e.client.tx.org == org)
            && (!NextHold(w, if org.Some? then 3 else 2) ==> w'.seen == w.seen)
  {
    EnterSucceedsExactly(w, pool, org);
    EnterKeeps(w, pool, org);
    var (w1, got) := Enter(w, pool, org);
    if got.Some? {
      var a := Ambient(got.value, pool, org);
      var w2 := Exec(w1, Some(a), depth + 1, Select(test, Skip, Skip)).0;
      QueryOnlyTx(Look(w1, a, depth + 1), a.client);
      var asked := Query(Look(w1, a, depth + 1), a.client).0;
      assert Exec(asked, Some(a), depth + 1, Skip) == (asked, Done);
      assert w2 == asked;
      FinishSees(w2, a.client, Exec(w1, Some(a), depth + 1, Select(test, Skip, Skip)).1);
    }
  }

  /** A scope that does nothing succeeds exactly when the checkout, BEGIN, SET LOCAL and COMMIT do. */
  lemma EmptyScopeSucceedsExactly(w: World, pool: Pool, org: Option<Org>, depth: nat)
    requires AllTidy(w)
    ensures var (w', out) := ExecOpened(w, pool, org, depth, Skip);
            (out == Done <==> NextHold(w, if org.Some? then 4 else 3)) && w'.rows == w.rows
  {
    EnterSucceedsExactly(w, pool, org);
    EnterKeeps(w, pool, org);
    var (w1, got) := Enter(w, pool, org);
    if got.Some? {
      EnterTape(w, pool, org);
      assert Exec(w1, Some(Ambient(got.value, pool, org)), depth + 1, Skip) == (w1, Done);
      assert Finish(w1, got.value, Done).1 == Done <==> !Next(w1).fails;
    }
  }

  /** Opening a scope takes one query after the other from the tape. */
  lemma EnterTape(w: World, pool: Pool, org: Option<Org>)
    requires Enter(w, pool, org).1.Some?
    ensures var n := if org.Some? then 3 else 2;
            Enter(w, pool, org).0.tape == if |w.tape| <= n then [] else w.tape[n..]
  {
    var (w1, got) := Checkout(w, pool);
    var (w2, begun) := Begin(w1, got.value);
    assert w1.tape == (if w.tape == [] then [] else w.tape[1..]);
    assert w2.tape == (if w1.tape == [] then [] else w1.tape[1..]);
    if org.Some? {
      var w3 := SetLocal(w2, got.value, org).0;
      assert w3.tape == (if w2.tape == [] then [] else w2.tape[1..]);
    }
  }

  /** A scope whose work ends in a throw throws, and commits nothing but what scopes inside it have committed. */
  lemma ThrownScopeCommitsNothing(w: World, pool: Pool, org: Option<Org>, depth: nat, body: Work)
    ensures ExecOpened(w, pool, org, depth, Seq(body, Throw)).1 == Threw
    ensures OpenedCommits(w, pool, org, depth, Seq(body, Throw))
         == var (w1, got) := Enter(w, pool, org);
            if got.None? then [] else Commits(w1, Some(Ambient(got.value, pool, org)), depth + 1, body)
  {
    var (w1, got) := Enter(w, pool, org);
    if got.Some? {
      var amb := Some(Ambient(got.value, pool, org));
      var (w2, out) := Exec(w1, amb, depth + 1, body);
      assert Exec(w2, amb, depth + 1, Throw) == (w2, Threw) && Commits(w2, amb, depth + 1, Throw) == [];
      assert Exec(w1, amb, depth + 1, Seq(body, Throw)) == (w2, Threw);
    }
  }

  predicate OpensNoScope(work: Work) {
    match work
    case Seq(a, b) => OpensNoScope(a) && OpensNoScope(b)
    case Catch(a, b) => OpensNoScope(a) && OpensNoScope(b)
    case Select(_, a, b) => OpensNoScope(a) && OpensNoScope(b)
    case InOrg(_, _, _) => false
    case InSystem(_, _) => false
    case _ => true
  }

  /** Outside any scope there is no client to run a statement on: each throws, and nothing changes. */
  lemma {:induction false} WithoutScopeNothingHappens(w: World, depth: nat, work: Work)
    requires OpensNoScope(work)
    ensures Exec(w, None, depth, work).0 == w
    ensures work.Insert? || work.Append? || work.Select? ==> Exec(w, None, depth, work).1 == Threw
  {
    match work
    case Seq(a, b) =>
      WithoutScopeNothingHappens(w, depth, a);
      WithoutScopeNothingHappens(w, depth, b);
    case Catch(a, b) =>
      WithoutScopeNothingHappens(w, depth, a);
      WithoutScopeNothingHappens(w, depth, b);
    case _ =>
  }

  /**
   * A connection whose ROLLBACK fails is given back dead, and no later work is run on
   * it; after one that succeeds the connection is as usable as before.
   */
  lemma FailedRollbackRetiresTheConnection(w: World, k: ClientId, later: Work)
    requires k < |w.clients| && AllTidy(Finish(w, k, Threw).0)
    ensures var v := Finish(w, k, Threw).0;
            && v.clients[k].tx.NoTx? && v.clients[k].dead == (w.clients[k].dead || !NextHold(w, 1))
            && (v.clients[k].dead ==>
                  var v' := Exec(v, None, 0, later).0; k < |v'.clients| && v'.clients[k] == v.clients[k])
  {
    var v := Finish(w, k, Threw).0;
    ExecKeepsDiscipline(v, None, 0, later, Held(v.clients));
  }

  lemma FinishSees(w: World, k: ClientId, out: Outcome)
    requires k < |w.clients|
    ensures Finish(w, k, out).0.seen == w.seen
  {
  }

  /**
   * A system scope runs on the configured system pool, on the passed one only when the
   * process has opted in to that, and is refused before any query otherwise.
   */
  lemma SystemScopeRunsOnTheSystemPool(w: World, amb: Option<Ambient>, depth: nat, pool: Pool, body: Work)
    requires amb.Some? ==> amb.value.client < |w.clients|
    ensures var v := AfterGet(w.vars, w.env);
            Exec(w, amb, depth, InSystem(pool, body))
            == if v.explicit || v.testOptIn
               then ExecOpened(w.(vars := v), if v.pool.Some? then v.pool.value else pool, None, depth, body)
               else (w.(vars := v), Threw)
  {
  }
}
