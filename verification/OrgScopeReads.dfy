/** What a SELECT shows, and what therefore no work can tell: the rows of orgs it names no scope for. */
module OrgScopeReads {
  import opened Base
  import opened Text
  import opened SystemPool
  import opened OrgScope
  import opened OrgScopeCommitLog
  import opened OrgScopeCommits
  import opened OrgScopeDiscipline
  import opened OrgScopeTheorems

  // ---- one SELECT ----

  /** Positions in increasing order that hold exactly the rows of `all` whose org satisfies the test, and no others. */
  ghost predicate Picks(positions: seq<nat>, all: seq<Row>, keep: Org -> bool) {
    && (forall i, j :: 0 <= i < j < |positions| ==> positions[i] < positions[j])
    && (forall i :: 0 <= i < |positions| ==> positions[i] < |all| && keep(all[positions[i]].org))
    && (forall p :: 0 <= p < |all| && keep(all[p].org) ==> p in positions)
  }

  /** The rows at those positions, in that order. */
  function At(positions: seq<nat>, all: seq<Row>): (r: seq<Row>)
    requires forall i :: 0 <= i < |positions| ==> positions[i] < |all|
    ensures |r| == |positions|
  {
    seq(|positions|, i requires 0 <= i < |positions| => all[positions[i]])
  }

  function Shifted(positions: seq<nat>): (r: seq<nat>)
    ensures |r| == |positions| && forall i :: 0 <= i < |r| ==> r[i] == positions[i] + 1
  {
    seq(|positions|, i requires 0 <= i < |positions| => positions[i] + 1)
  }

  lemma ShiftedAt(positions: seq<nat>, all: seq<Row>)
    requires all != [] && forall i :: 0 <= i < |positions| ==> positions[i] < |all| - 1
    ensures At(Shifted(positions), all) == At(positions, all[1..])
  {
  }

  lemma AtFirst(positions: seq<nat>, all: seq<Row>)
    requires all != [] && forall i :: 0 <= i < |positions| ==> positions[i] < |all|
    ensures At([0] + positions, all) == [all[0]] + At(positions, all)
  {
  }

  lemma ShiftedHas(positions: seq<nat>, p: nat)
    requires p > 0 && p - 1 in positions
    ensures p in Shifted(positions)
  {
    var i :| 0 <= i < |positions| && positions[i] == p - 1;
    assert Shifted(positions)[i] == p;
  }

  /** Positions in the tail of the rows, seen from the front: they hold what is kept behind the first row. */
  lemma PicksLater(positions: seq<nat>, all: seq<Row>, keep: Org -> bool)
    requires all != [] && Picks(positions, all[1..], keep)
    ensures var later := Shifted(positions);
            && (forall i, j :: 0 <= i < j < |later| ==> later[i] < later[j])
            && (forall i :: 0 <= i < |later| ==> 0 < later[i] < |all| && keep(all[later[i]].org))
            && forall p :: 1 <= p < |all| && keep(all[p].org) ==> p in later
  {
    var later := Shifted(positions);
    forall p | 1 <= p < |all| && keep(all[p].org) ensures p in later {
      assert all[1..][p - 1] == all[p];
      ShiftedHas(positions, p);
    }
    forall i | 0 <= i < |later| ensures 0 < later[i] < |all| && keep(all[later[i]].org) {
      assert all[later[i]] == all[1..][positions[i]];
    }
  }

  lemma PicksFirst(later: seq<nat>, all: seq<Row>, keep: Org -> bool)
    requires all != [] && forall i, j :: 0 <= i < j < |later| ==> later[i] < later[j]
    requires forall i :: 0 <= i < |later| ==> 0 < later[i] < |all| && keep(all[later[i]].org)
    requires forall p :: 1 <= p < |all| && keep(all[p].org) ==> p in later
    ensures Picks(if keep(all[0].org) then [0] + later else later, all, keep)
  {
    if keep(all[0].org) {
      var r := [0] + later;
      assert r[0] == 0 && forall i :: 1 <= i < |r| ==> r[i] == later[i - 1];
      forall p | 0 <= p < |all| && keep(all[p].org) ensures p in r {
        if p > 0 { assert p in later; }
      }
    } else {
      assert Picks(later, all, keep);
    }
  }

  lemma {:induction false} ShownPicks(c: Client, bypass: set<Pool>, rows: seq<Row>, keep: Org -> bool)
      returns (positions: seq<nat>)
    requires forall org :: keep(org) <==> Permits(c, bypass, org)
    ensures Picks(positions, rows, keep) && Shown(c, bypass, rows) == At(positions, rows)
  {
    if rows == [] {
      positions := [];
    } else {
      var rest := ShownPicks(c, bypass, rows[1..], keep);
      PicksLater(rest, rows, keep);
      PicksFirst(Shifted(rest), rows, keep);
      ShiftedAt(rest, rows);
      AtFirst(Shifted(rest), rows);
      positions := if keep(rows[0].org) then [0] + Shifted(rest) else Shifted(rest);
      ShownFirst(c, bypass, rows);
    }
  }

  lemma ShownFirst(c: Client, bypass: set<Pool>, rows: seq<Row>)
    requires rows != []
    ensures Shown(c, bypass, rows)
         == if Permits(c, bypass, rows[0].org) then [rows[0]] + Shown(c, bypass, rows[1..])
            else Shown(c, bypass, rows[1..])
  {
  }

  /**
   * A SELECT shows, in order and as often as they occur, exactly those of the durable
   * rows and then of its transaction's own rows that belong to the org the transaction
   * is set to; on a pool whose role bypasses the policy it shows them all.
   */
  lemma ReadShowsExactly(w: World, k: ClientId) returns (positions: seq<nat>)
    requires k < |w.clients| && w.clients[k].tx.Open?
    ensures var c := w.clients[k];
            var all := w.rows + c.tx.rows;
            && Picks(positions, all, org => c.pool in w.bypass || c.tx.org == Some(org))
            && Read(w, k) == At(positions, all)
            && forall row :: row in Read(w, k) <==>
                 (row in w.rows || row in c.tx.rows) && (c.pool in w.bypass || c.tx.org == Some(row.org))
  {
    var c := w.clients[k];
    positions := ShownPicks(c, w.bypass, w.rows + c.tx.rows, org => c.pool in w.bypass || c.tx.org == Some(org));
  }

  // ---- what no work can tell ----

  /** The rows of these orgs, in order. */
  function Of(rows: seq<Row>, orgs: set<Org>): seq<Row> {
    if rows == [] then [] else (if rows[0].org in orgs then [rows[0]] else []) + Of(rows[1..], orgs)
  }

  /** Two worlds that differ at most in durable rows of other orgs and in what was delivered. */
  ghost predicate Alike(w: World, v: World, orgs: set<Org>) {
    v == w.(rows := v.rows, delivered := v.delivered) && Of(w.rows, orgs) == Of(v.rows, orgs)
  }

  lemma {:induction false} OfConcat(a: seq<Row>, b: seq<Row>, orgs: set<Org>)
    ensures Of(a + b, orgs) == Of(a, orgs) + Of(b, orgs)
  {
    if a == [] {
      assert a + b == b;
    } else {
      assert (a + b)[0] == a[0] && (a + b)[1..] == a[1..] + b;
      OfConcat(a[1..], b, orgs);
      var first := if a[0].org in orgs then [a[0]] else [];
      assert first + (Of(a[1..], orgs) + Of(b, orgs)) == (first + Of(a[1..], orgs)) + Of(b, orgs);
    }
  }

  lemma {:induction false} ShownConcat(c: Client, bypass: set<Pool>, a: seq<Row>, b: seq<Row>)
    ensures Shown(c, bypass, a + b) == Shown(c, bypass, a) + Shown(c, bypass, b)
  {
    if a == [] {
      assert a + b == b;
    } else {
      assert (a + b)[0] == a[0] && (a + b)[1..] == a[1..] + b;
      ShownConcat(c, bypass, a[1..], b);
    }
  }

  /** The policy shows none of the rows of other orgs. */
  lemma {:induction false} ShownOfOrgs(c: Client, bypass: set<Pool>, rows: seq<Row>, orgs: set<Org>)
    requires forall org :: Permits(c, bypass, org) ==> org in orgs
    ensures Shown(c, bypass, rows) == Shown(c, bypass, Of(rows, orgs))
  {
    if rows != [] {
      ShownOfOrgs(c, bypass, rows[1..], orgs);
      if rows[0].org in orgs {
        assert ([rows[0]] + Of(rows[1..], orgs))[1..] == Of(rows[1..], orgs);
      } else {
        assert !Permits(c, bypass, rows[0].org);
        assert [] + Of(rows[1..], orgs) == Of(rows[1..], orgs);
      }
    }
  }

  /** The scope is an org scope for one of these orgs, on a pool under the policy. */
  predicate Within(amb: Option<Ambient>, bypass: set<Pool>, orgs: set<Org>) {
    amb.Some? ==> amb.value.pool !in bypass && amb.value.org.Some? && amb.value.org.value in orgs
  }

  lemma ReadAlike(w: World, v: World, a: Ambient, orgs: set<Org>)
    requires Alike(w, v, orgs) && AmbientServed(w, Some(a)) && Within(Some(a), w.bypass, orgs)
    ensures Read(w, a.client) == Read(v, a.client)
  {
    var c := w.clients[a.client];
    ShownConcat(c, w.bypass, w.rows, c.tx.rows);
    ShownConcat(c, w.bypass, v.rows, c.tx.rows);
    ShownOfOrgs(c, w.bypass, w.rows, orgs);
    ShownOfOrgs(c, w.bypass, v.rows, orgs);
  }

  // ---- single statements do not look at rows ----

  function With(w: World, v: World): World {
    w.(rows := v.rows, delivered := v.delivered)
  }

  lemma QueryBlind(w: World, v: World, k: ClientId)
    requires k < |w.clients|
    ensures Query(With(w, v), k) == (With(Query(w, k).0, v), Query(w, k).1)
  {
  }

  lemma InsertBlind(w: World, v: World, k: ClientId, row: Row)
    requires k < |w.clients|
    ensures InsertRow(With(w, v), k, row) == (With(InsertRow(w, k, row).0, v), InsertRow(w, k, row).1)
  {
    QueryBlind(w, v, k);
  }

  lemma NotifyBlind(w: World, v: World, k: ClientId, n: Notify)
    requires k < |w.clients|
    ensures SendNotify(With(w, v), k, n) == (With(SendNotify(w, k, n).0, v), SendNotify(w, k, n).1)
  {
    QueryBlind(w, v, k);
  }

  lemma InsertEventBlind(w: World, v: World, k: ClientId, org: Org, run: Option<string>)
    requires k < |w.clients|
    ensures InsertEvent(With(w, v), k, org, run)
         == (With(InsertEvent(w, k, org, run).0, v), InsertEvent(w, k, org, run).1)
  {
    InsertBlind(w, v, k, Event(w.nextId, org, run));
  }

  lemma WakeBlind(w: World, v: World, k: ClientId, id: EventId, run: Option<string>)
    requires k < |w.clients|
    ensures WakeListeners(With(w, v), k, id, run)
         == (With(WakeListeners(w, k, id, run).0, v), WakeListeners(w, k, id, run).1)
  {
    if run.None? {
      NotifyBlind(w, v, k, EventAppended(id));
    } else if SafeId(run.value) {
      NotifyBlind(w, v, k, RunActivity(run.value));
      NotifyBlind(SendNotify(w, k, RunActivity(run.value)).0, v, k, EventAppended(id));
    }
  }

  lemma AppendBlind(w: World, v: World, k: ClientId, input: EventInput)
    requires k < |w.clients|
    ensures AppendEvent(With(w, v), k, input) == (With(AppendEvent(w, k, input).0, v), AppendEvent(w, k, input).1)
  {
    if !Blank(input.org) && input.payloadOk {
      InsertEventBlind(w, v, k, input.org, input.run);
      WakeBlind(InsertEvent(w, k, input.org, input.run).0, v, k, w.nextId, input.run);
    }
  }

  lemma SetLocalBlind(w: World, v: World, k: ClientId, org: Option<Org>)
    requires k < |w.clients|
    ensures SetLocal(With(w, v), k, org) == (With(SetLocal(w, k, org).0, v), SetLocal(w, k, org).1)
  {
    if org.Some? {
      QueryBlind(w, v, k);
    }
  }

  lemma BackOutBlind(w: World, v: World, k: ClientId)
    requires k < |w.clients|
    ensures Release(Rollback(With(w, v), k), k) == With(Release(Rollback(w, k), k), v)
  {
  }

  lemma EnterBlind(w: World, v: World, pool: Pool, org: Option<Org>)
    ensures Enter(With(w, v), pool, org) == (With(Enter(w, pool, org).0, v), Enter(w, pool, org).1)
  {
    var (w1, got) := Checkout(w, pool);
    assert Checkout(With(w, v), pool) == (With(w1, v), got);
    if got.Some? {
      var k := got.value;
      var (w2, begun) := Begin(w1, k);
      assert Begin(With(w1, v), k) == (With(w2, v), begun);
      BackOutBlind(w2, v, k);
      SetLocalBlind(w2, v, k, org);
      BackOutBlind(SetLocal(w2, k, org).0, v, k);
    }
  }

  // ---- whole work ----

  /** Both worlds go on alike: same outcome, same rows stored and committed, and as alike as before. */
  ghost predicate SameRun(w: World, v: World, amb: Option<Ambient>, depth: nat, work: Work, orgs: set<Org>)
    requires amb.Some? ==> amb.value.client < |w.clients| && amb.value.client < |v.clients|
  {
    var (w', out) := Exec(w, amb, depth, work);
    var (v', out') := Exec(v, amb, depth, work);
    && out' == out && Alike(w', v', orgs) && w'.bypass == w.bypass
    && Stored(v, amb, depth, work) == Stored(w, amb, depth, work)
    && Commits(v, amb, depth, work) == Commits(w, amb, depth, work)
  }

  lemma StatementAlike(w: World, v: World, a: Ambient, depth: nat, work: Work, orgs: set<Org>)
    requires (work.Insert? || work.Append?) && AmbientServed(w, Some(a)) && Alike(w, v, orgs)
    ensures SameRun(w, v, Some(a), depth, work, orgs)
  {
    var w0 := Look(w, a, depth);
    assert Look(v, a, depth) == With(w0, v);
    if work.Insert? {
      InsertBlind(w0, v, a.client, Other(work.tag, work.org));
      InsertOnlyTx(w0, a.client, Other(work.tag, work.org));
    } else {
      AppendBlind(w0, v, a.client, work.input);
      InsertEventBlind(w0, v, a.client, work.input.org, work.input.run);
      AppendOnlyTx(w0, a.client, work.input);
    }
  }

  lemma SelectAlike(w: World, v: World, a: Ambient, depth: nat, orgs: set<Org>)
    requires AllTidy(w) && AmbientServed(w, Some(a)) && Alike(w, v, orgs) && Within(Some(a), w.bypass, orgs)
    ensures var (w1, out) := Query(Look(w, a, depth), a.client);
            var (v1, out') := Query(Look(v, a, depth), a.client);
            && out' == out && Alike(w1, v1, orgs) && w1.bypass == w.bypass
            && AllTidy(w1) && AmbientServed(w1, Some(a)) && Read(w1, a.client) == Read(v1, a.client)
  {
    var w0 := Look(w, a, depth);
    assert Look(v, a, depth) == With(w0, v);
    QueryBlind(w0, v, a.client);
    SelectServes(w, a, depth);
    ReadAlike(Query(w0, a.client).0, Query(Look(v, a, depth), a.client).0, a, orgs);
  }

  /**
   * Work under the policy, at every failure point, cannot tell what other orgs than its
   * own have stored: two worlds that agree on the durable rows of its orgs, on the
   * connections and on what fails give it the same results, and it leaves them alike.
   */
  lemma {:induction false} ExecAlike(w: World, v: World, amb: Option<Ambient>, depth: nat, work: Work, orgs: set<Org>)
    requires AllTidy(w) && AmbientServed(w, amb) && Alike(w, v, orgs)
    requires Within(amb, w.bypass, orgs) && UnderThePolicy(work, w.bypass) && Orgs(work) <= orgs
    ensures SameRun(w, v, amb, depth, work, orgs)
    decreases work, 1
  {
    match work
    case Skip =>
    case Throw =>
    case InSystem(_, _) =>
    case Insert(_, _) =>
      if amb.Some? { StatementAlike(w, v, amb.value, depth, work, orgs); }
    case Append(_) =>
      if amb.Some? { StatementAlike(w, v, amb.value, depth, work, orgs); }
    case Select(test, yes, no) =>
      if amb.Some? {
        SelectAlike(w, v, amb.value, depth, orgs);
        var (w1, out) := Query(Look(w, amb.value, depth), amb.value.client);
        var v1 := Query(Look(v, amb.value, depth), amb.value.client).0;
        if out == Done {
          ExecAlike(w1, v1, amb, depth, if test(Read(w1, amb.value.client)) then yes else no, orgs);
        }
      }
    case Seq(first, then_) => ThenAlike(w, v, amb, depth, first, then_, Done, orgs, work);
    case Catch(body, handler) => ThenAlike(w, v, amb, depth, body, handler, Threw, orgs, work);
    case InOrg(pool, org, body) =>
      if SafeId(org) {
        if Joins(amb, pool) {
          if amb.value.org == Some(org) { ExecAlike(w, v, amb, depth, body, orgs); }
        } else {
          OpenedAlike(w, v, pool, org, depth, body, orgs);
          OpenedCommitsAlike(w, v, pool, org, depth, body, orgs);
        }
      }
  }

  /** Two pieces of work in a row, the second run only on the given outcome of the first. */
  lemma {:induction false} ThenAlike(w: World, v: World, amb: Option<Ambient>, depth: nat, a: Work, b: Work,
        on: Outcome, orgs: set<Org>, parent: Work)
    requires a < parent && b < parent
    requires AllTidy(w) && AmbientServed(w, amb) && Alike(w, v, orgs)
    requires Within(amb, w.bypass, orgs) && UnderThePolicy(a, w.bypass) && UnderThePolicy(b, w.bypass)
    requires Orgs(a) <= orgs && Orgs(b) <= orgs
    ensures SameRun(w, v, amb, depth, a, orgs)
    ensures var (w1, out) := Exec(w, amb, depth, a);
            AmbientServed(w1, amb) && (out == on ==> SameRun(w1, Exec(v, amb, depth, a).0, amb, depth, b, orgs))
    decreases parent, 0
  {
    ExecAlike(w, v, amb, depth, a, orgs);
    ExecServes(w, amb, depth, a);
    var (w1, out) := Exec(w, amb, depth, a);
    if out == on {
      ExecAlike(w1, Exec(v, amb, depth, a).0, amb, depth, b, orgs);
    }
  }

  lemma CommitAlike(w: World, v: World, k: ClientId, orgs: set<Org>)
    requires Alike(w, v, orgs) && k < |w.clients|
    ensures Commit(v, k).1 == Commit(w, k).1
    ensures Alike(Commit(w, k).0, Commit(v, k).0, orgs) && Commit(w, k).0.bypass == w.bypass
  {
    var tx := w.clients[k].tx;
    if tx.Open? {
      OfConcat(w.rows, tx.rows, orgs);
      OfConcat(v.rows, tx.rows, orgs);
    }
  }

  lemma BackOutAlike(w: World, v: World, k: ClientId, orgs: set<Org>)
    requires Alike(w, v, orgs) && k < |w.clients|
    ensures Alike(Release(Rollback(w, k), k), Release(Rollback(v, k), k), orgs)
    ensures Alike(Release(w, k), Release(v, k), orgs)
    ensures Release(Rollback(w, k), k).bypass == w.bypass
  {
    assert v == With(w, v);
    BackOutBlind(w, v, k);
  }

  /** The end of a scope adds the same rows to both. */
  lemma FinishAlike(w: World, v: World, k: ClientId, out: Outcome, orgs: set<Org>)
    requires Alike(w, v, orgs) && k < |w.clients|
    ensures Finish(v, k, out).1 == Finish(w, k, out).1
    ensures Alike(Finish(w, k, out).0, Finish(v, k, out).0, orgs) && Finish(w, k, out).0.bypass == w.bypass
  {
    if out == Done {
      CommitAlike(w, v, k, orgs);
      BackOutAlike(Commit(w, k).0, Commit(v, k).0, k, orgs);
    } else {
      BackOutAlike(w, v, k, orgs);
    }
  }

  lemma EnterAlike(w: World, v: World, pool: Pool, org: Org, orgs: set<Org>)
    requires AllTidy(w) && Alike(w, v, orgs) && pool !in w.bypass && org in orgs
    ensures var (w1, got) := Enter(w, pool, Some(org));
            && Enter(v, pool, Some(org)).1 == got && Alike(w1, Enter(v, pool, Some(org)).0, orgs)
            && w1.bypass == w.bypass && AllTidy(w1)
            && (got.Some? ==> AmbientServed(w1, Some(Ambient(got.value, pool, Some(org)))))
  {
    assert v == With(w, v);
    EnterKeeps(w, pool, Some(org));
    EnterBlind(w, v, pool, Some(org));
  }

  lemma {:induction false} OpenedAlike(w: World, v: World, pool: Pool, org: Org, depth: nat, body: Work, orgs: set<Org>)
    requires AllTidy(w) && Alike(w, v, orgs) && pool !in w.bypass && org in orgs
    requires UnderThePolicy(body, w.bypass) && Orgs(body) <= orgs
    ensures var (w', out) := ExecOpened(w, pool, Some(org), depth, body);
            var (v', out') := ExecOpened(v, pool, Some(org), depth, body);
            out' == out && Alike(w', v', orgs) && w'.bypass == w.bypass
    decreases body, 3
  {
    EnterAlike(w, v, pool, org, orgs);
    var (w1, got) := Enter(w, pool, Some(org));
    if got.Some? {
      EnteredAlike(w1, Enter(v, pool, Some(org)).0, Ambient(got.value, pool, Some(org)), depth + 1, body, orgs);
    }
  }

  lemma {:induction false} OpenedCommitsAlike(w: World, v: World, pool: Pool, org: Org, depth: nat, body: Work,
        orgs: set<Org>)
    requires AllTidy(w) && Alike(w, v, orgs) && pool !in w.bypass && org in orgs
    requires UnderThePolicy(body, w.bypass) && Orgs(body) <= orgs
    ensures OpenedCommits(v, pool, Some(org), depth, body) == OpenedCommits(w, pool, Some(org), depth, body)
    decreases body, 3
  {
    EnterAlike(w, v, pool, org, orgs);
    var (w1, got) := Enter(w, pool, Some(org));
    if got.Some? {
      var a := Ambient(got.value, pool, Some(org));
      var v1 := Enter(v, pool, Some(org)).0;
      EnteredAlike(w1, v1, a, depth + 1, body, orgs);
      var (w2, worked) := Exec(w1, Some(a), depth + 1, body);
      var (v2, worked') := Exec(v1, Some(a), depth + 1, body);
      assert worked' == worked && Pending(v2.clients[a.client].tx) == Pending(w2.clients[a.client].tx);
      assert Commits(v1, Some(a), depth + 1, body) == Commits(w1, Some(a), depth + 1, body);
    }
  }

  /** The work of a scope that has been opened in both worlds, and its end. */
  lemma {:induction false} EnteredAlike(w: World, v: World, a: Ambient, depth: nat, body: Work, orgs: set<Org>)
    requires AllTidy(w) && AmbientServed(w, Some(a)) && Alike(w, v, orgs) && Within(Some(a), w.bypass, orgs)
    requires UnderThePolicy(body, w.bypass) && Orgs(body) <= orgs
    ensures SameRun(w, v, Some(a), depth, body, orgs)
    ensures var (w2, worked) := Exec(w, Some(a), depth, body);
            var v2 := Exec(v, Some(a), depth, body).0;
            && a.client < |w2.clients| && v2.clients == w2.clients
            && Rejected(v, v2, a.client) == Rejected(w, w2, a.client)
            && Finish(v2, a.client, worked).1 == Finish(w2, a.client, worked).1
            && Alike(Finish(w2, a.client, worked).0, Finish(v2, a.client, worked).0, orgs)
            && Finish(w2, a.client, worked).0.bypass == w.bypass
    decreases body, 2
  {
    ExecAlike(w, v, Some(a), depth, body, orgs);
    var (w2, worked) := Exec(w, Some(a), depth, body);
    FinishAlike(w2, Exec(v, Some(a), depth, body).0, a.client, worked, orgs);
  }

  /** From outside any scope: rows of orgs that the work opens no scope for make no difference to it. */
  lemma UnnamedOrgsAreInvisible(w: World, v: World, work: Work)
    requires Idle(w) && UnderThePolicy(work, w.bypass) && Alike(w, v, Orgs(work))
    ensures SameRun(w, v, None, 0, work, Orgs(work))
  {
    ExecAlike(w, v, None, 0, work, Orgs(work));
  }
}
