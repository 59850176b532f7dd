/** What becomes durable, and who is woken for it, over any nest of scopes. */
module OrgScopeWakes {
  import opened Base
  import opened Text
  import opened SystemPool
  import opened OrgScope
  import opened OrgScopeDiscipline

  // ---- rows and the wakes they are owed ----

  /** The append of such a row can send its notifications: the run id is absent or of the guarded alphabet. */
  predicate Wakeable(row: Row) {
    row.Event? && (row.run.None? || SafeId(row.run.value))
  }

  /** Ids of the wakeable event rows, in order. */
  function Announced(rows: seq<Row>): seq<EventId> {
    if rows == [] then []
    else (if Wakeable(rows[0]) then [rows[0].id] else []) + Announced(rows[1..])
  }

  /** Ids of all event rows, in order. */
  function Appended(rows: seq<Row>): seq<EventId> {
    if rows == [] then [] else (if rows[0].Event? then [rows[0].id] else []) + Appended(rows[1..])
  }

  /** Event ids delivered on the dispatcher's channel, in order. */
  function EventIds(ns: seq<Notify>): seq<EventId> {
    if ns == [] then [] else (if ns[0].EventAppended? then [ns[0].id] else []) + EventIds(ns[1..])
  }

  lemma {:induction false} AnnouncedConcat(a: seq<Row>, b: seq<Row>)
    ensures Announced(a + b) == Announced(a) + Announced(b)
  {
    if a == [] {
      assert a + b == b;
    } else {
      assert (a + b)[0] == a[0] && (a + b)[1..] == a[1..] + b;
      AnnouncedConcat(a[1..], b);
      var first := if Wakeable(a[0]) then [a[0].id] else [];
      assert first + (Announced(a[1..]) + Announced(b)) == (first + Announced(a[1..])) + Announced(b);
    }
  }

  lemma {:induction false} EventIdsConcat(a: seq<Notify>, b: seq<Notify>)
    ensures EventIds(a + b) == EventIds(a) + EventIds(b)
  {
    if a == [] {
      assert a + b == b;
    } else {
      assert (a + b)[0] == a[0] && (a + b)[1..] == a[1..] + b;
      EventIdsConcat(a[1..], b);
      var first := if a[0].EventAppended? then [a[0].id] else [];
      assert first + (EventIds(a[1..]) + EventIds(b)) == (first + EventIds(a[1..])) + EventIds(b);
    }
  }

  lemma {:induction false} EventIdsMembers(ns: seq<Notify>, id: EventId)
    ensures EventAppended(id) in ns <==> id in EventIds(ns)
  {
    if ns != [] {
      EventIdsMembers(ns[1..], id);
      assert ns == [ns[0]] + ns[1..];
    }
  }

  /** All appended ids are announced exactly when every event row is wakeable. */
  lemma {:induction false} AnnouncedIsAppended(rows: seq<Row>)
    ensures |Announced(rows)| <= |Appended(rows)|
    ensures Announced(rows) == Appended(rows) <==> forall r :: r in rows && r.Event? ==> Wakeable(r)
  {
    if rows != [] {
      AnnouncedIsAppended(rows[1..]);
      assert rows == [rows[0]] + rows[1..];
      if Wakeable(rows[0]) {
        assert Announced(rows)[1..] == Announced(rows[1..]) && Appended(rows)[1..] == Appended(rows[1..]);
      } else {
        assert Announced(rows) == Announced(rows[1..]);
      }
    }
  }

  /** Collapsing repeated notifications never drops an event id, since ids are distinct. */
  lemma {:induction false} CollapseKeepsIds(ns: seq<Notify>)
    requires NoDuplicates(EventIds(ns))
    ensures EventIds(Collapse(ns)) == EventIds(ns)
  {
    if ns != [] {
      var n := |ns| - 1;
      var init, last := ns[..n], ns[n];
      assert ns == init + [last];
      EventIdsConcat(init, [last]);
      var e := EventIds([last]);
      assert forall i :: 0 <= i < |EventIds(init)| ==> EventIds(init)[i] == EventIds(ns)[i];
      CollapseKeepsIds(init);
      EventIdsConcat(Collapse(init), [last]);
      if last.EventAppended? {
        assert e == [last.id];
        EventIdsMembers(init, last.id);
        assert EventIds(ns)[|EventIds(init)|] == last.id;
        assert last.id !in EventIds(init);
        assert last !in Collapse(init);
      } else {
        assert e == [];
      }
    }
  }

  /** Every safe run id of a row has a run wake, and every run wake comes from a row. */
  ghost predicate RunsMatch(rows: seq<Row>, ns: seq<Notify>) {
    && (forall r :: r in rows && Wakeable(r) && r.run.Some? ==> RunActivity(r.run.value) in ns)
    && (forall n :: n in ns && n.RunActivity? ==> FromRow(rows, n.run))
  }

  ghost predicate FromRow(rows: seq<Row>, run: string) {
    exists r :: r in rows && r.Event? && r.run == Some(run)
  }

  /** A transaction that may still commit owes exactly the wakes it has queued. */
  ghost predicate TxTold(tx: Tx, nextId: EventId) {
    tx.Open? && !tx.aborted ==>
      && EventIds(tx.notifies) == Announced(tx.rows)
      && RunsMatch(tx.rows, tx.notifies)
      && NoDuplicates(EventIds(tx.notifies))
      && forall id :: id in EventIds(tx.notifies) ==> id < nextId
  }

  /** What was delivered is what the durable rows are owed. */
  ghost predicate Woken(w: World) {
    EventIds(w.delivered) == Announced(w.rows) && RunsMatch(w.rows, w.delivered)
  }

  ghost predicate Told(w: World) {
    && Woken(w)
    && forall k :: 0 <= k < |w.clients| ==> TxTold(w.clients[k].tx, w.nextId)
  }

  lemma RunsMatchConcat(rows: seq<Row>, ns: seq<Notify>, rows': seq<Row>, ns': seq<Notify>)
    requires RunsMatch(rows, ns) && RunsMatch(rows', ns')
    ensures RunsMatch(rows + rows', ns + ns')
  {
    forall n | n in ns + ns' && n.RunActivity?
      ensures FromRow(rows + rows', n.run)
    {
      if n in ns {
        var r :| r in rows && r.Event? && r.run == Some(n.run);
        assert r in rows + rows';
      } else {
        var r :| r in rows' && r.Event? && r.run == Some(n.run);
        assert r in rows + rows';
      }
    }
  }

  // ---- one append inside a transaction ----

  /** The transaction after an append that went through, or that threw on the run id's alphabet. */
  function TxAppended(tx: Tx, id: EventId, org: Org, run: Option<string>): Tx
    requires tx.Open?
  {
    var row := Event(id, org, run);
    if !Wakeable(row) then tx.(rows := tx.rows + [row])
    else tx.(rows := tx.rows + [row],
             notifies := tx.notifies + (if run.Some? then [RunActivity(run.value)] else []) + [EventAppended(id)])
  }

  lemma OneEventId(runs: seq<Notify>, id: EventId)
    requires |runs| <= 1 && forall n :: n in runs ==> n.RunActivity?
    ensures EventIds(runs + [EventAppended(id)]) == [id]
  {
    EventIdsConcat(runs, [EventAppended(id)]);
    assert [EventAppended(id)][1..] == [];
    assert EventIds([EventAppended(id)]) == [id];
    if runs != [] {
      assert runs[1..] == [] && runs[0] in runs;
    }
    assert EventIds(runs) == [];
    assert [] + [id] == [id];
  }

  lemma FreshIdKeepsDistinct(ids: seq<EventId>, id: EventId)
    requires NoDuplicates(ids) && forall i :: i in ids ==> i < id
    ensures NoDuplicates(ids + [id]) && forall i :: i in ids + [id] ==> i < id + 1
  {
    var all := ids + [id];
    forall i, j | 0 <= i < j < |all|
      ensures all[i] != all[j]
    {
      assert all[i] == ids[i] && ids[i] in ids;
    }
  }

  lemma WakeableAppended(tx: Tx, row: Row, id: EventId, runs: seq<Notify>)
    requires tx.Open? && !tx.aborted && TxTold(tx, id)
    requires row.Event? && row.id == id && Wakeable(row)
    requires runs == if row.run.Some? then [RunActivity(row.run.value)] else []
    ensures TxTold(tx.(rows := tx.rows + [row], notifies := tx.notifies + runs + [EventAppended(id)]), id + 1)
  {
    var news := runs + [EventAppended(id)];
    var tx' := tx.(rows := tx.rows + [row], notifies := tx.notifies + news);
    assert tx.notifies + runs + [EventAppended(id)] == tx.notifies + news;
    AnnouncedConcat(tx.rows, [row]);
    assert [row][1..] == [] && Announced([row]) == [id];
    EventIdsConcat(tx.notifies, news);
    OneEventId(runs, id);
    assert EventIds(tx'.notifies) == EventIds(tx.notifies) + [id];
    FreshIdKeepsDistinct(EventIds(tx.notifies), id);
    assert RunsMatch(tx'.rows, tx'.notifies) by {
      RunsOfOne(row, news);
      RunsMatchConcat(tx.rows, tx.notifies, [row], news);
    }
  }

  lemma RunsOfOne(row: Row, news: seq<Notify>)
    requires row.Event? && Wakeable(row)
    requires row.run.Some? ==> RunActivity(row.run.value) in news
    requires forall n :: n in news && n.RunActivity? ==> row.run == Some(n.run)
    ensures RunsMatch([row], news)
  {
    assert row in [row];
  }

  lemma AppendedTold(tx: Tx, id: EventId, org: Org, run: Option<string>)
    requires tx.Open? && !tx.aborted && TxTold(tx, id)
    ensures TxTold(TxAppended(tx, id, org, run), id + 1)
  {
    var row := Event(id, org, run);
    if Wakeable(row) {
      WakeableAppended(tx, row, id, if run.Some? then [RunActivity(run.value)] else []);
    } else {
      AnnouncedConcat(tx.rows, [row]);
      assert Announced([row]) == [];
      RunsMatchConcat(tx.rows, tx.notifies, [row], []);
      assert tx.notifies + [] == tx.notifies;
    }
  }

  lemma WakeTx(w: World, k: ClientId, id: EventId, run: Option<string>)
    requires k < |w.clients| && w.clients[k].tx.Open?
    ensures var (w', out) := WakeListeners(w, k, id, run);
            var tx, tx' := w.clients[k].tx, w'.clients[k].tx;
            && tx'.Open? && w'.nextId == w.nextId
            && (tx'.aborted
                || if run.Some? && !SafeId(run.value) then tx' == tx && out == Threw
                   else out == Done && tx' == tx.(notifies := tx.notifies
                          + (if run.Some? then [RunActivity(run.value)] else []) + [EventAppended(id)]))
  {
    if run.None? {
      assert w.clients[k].tx.notifies + [] == w.clients[k].tx.notifies;
    }
  }

  /** An append leaves its transaction aborted, untouched, or with the row and the wakes it is owed. */
  lemma AppendTx(w: World, k: ClientId, input: EventInput)
    requires k < |w.clients| && w.clients[k].tx.Open?
    ensures var (w', out) := AppendEvent(w, k, input);
            var tx, tx' := w.clients[k].tx, w'.clients[k].tx;
            && tx'.Open? && w'.nextId >= w.nextId
            && (tx'.aborted || (tx' == tx && out == Threw)
                || (!tx.aborted && w'.nextId == w.nextId + 1 && tx' == TxAppended(tx, w.nextId, input.org, input.run)
                    && Permitted(w, k, input.org)
                    && (out == Threw <==> !Wakeable(Event(w.nextId, input.org, input.run)))))
  {
    if !Blank(input.org) && input.payloadOk {
      var (w1, inserted) := InsertEvent(w, k, input.org, input.run);
      if inserted == Done {
        WakeTx(w1, k, w.nextId, input.run);
      }
    }
  }

  lemma InsertTx(w: World, k: ClientId, tag: nat, org: Org)
    requires k < |w.clients| && w.clients[k].tx.Open?
    ensures var (w', out) := InsertRow(w, k, Other(tag, org));
            var tx, tx' := w.clients[k].tx, w'.clients[k].tx;
            && tx'.Open? && w'.nextId == w.nextId
            && (tx'.aborted || (tx' == tx.(rows := tx.rows + [Other(tag, org)]) && Permitted(w, k, org)))
  {
  }

  lemma TxToldLater(tx: Tx, a: EventId, b: EventId)
    requires TxTold(tx, a) && a <= b
    ensures TxTold(tx, b)
  {
  }

  lemma StatementTells(w: World, k: ClientId, w': World)
    requires Told(w) && OnlyTx(w, k, w') && w.nextId <= w'.nextId
    requires TxTold(w'.clients[k].tx, w'.nextId)
    ensures Told(w')
  {
    forall j | 0 <= j < |w'.clients|
      ensures TxTold(w'.clients[j].tx, w'.nextId)
    {
      if j != k {
        TxToldLater(w.clients[j].tx, w.nextId, w'.nextId);
      }
    }
  }

  lemma AppendTells(w: World, k: ClientId, input: EventInput)
    requires Told(w) && k < |w.clients| && w.clients[k].tx.Open?
    ensures Told(AppendEvent(w, k, input).0)
  {
    var w' := AppendEvent(w, k, input).0;
    AppendOnlyTx(w, k, input);
    AppendTx(w, k, input);
    var tx, tx' := w.clients[k].tx, w'.clients[k].tx;
    if !tx'.aborted {
      if tx' == tx {
        TxToldLater(tx, w.nextId, w'.nextId);
      } else {
        AppendedTold(tx, w.nextId, input.org, input.run);
      }
    }
    StatementTells(w, k, w');
  }

  /** A row that is no event is owed nothing. */
  lemma OtherRowTold(tx: Tx, row: Row, nextId: EventId)
    requires tx.Open? && TxTold(tx, nextId) && row.Other?
    ensures TxTold(tx.(rows := tx.rows + [row]), nextId)
  {
    if !tx.aborted {
      AnnouncedConcat(tx.rows, [row]);
      assert Announced([row]) == [];
      RunsMatchConcat(tx.rows, tx.notifies, [row], []);
      assert tx.notifies + [] == tx.notifies;
    }
  }

  lemma InsertTold(w: World, k: ClientId, tag: nat, org: Org)
    requires k < |w.clients| && w.clients[k].tx.Open? && TxTold(w.clients[k].tx, w.nextId)
    ensures var (w', out) := InsertRow(w, k, Other(tag, org));
            && w'.nextId == w.nextId && w'.clients[k].tx.Open? && TxTold(w'.clients[k].tx, w'.nextId)
            && w'.clients[k].tx.rows == w.clients[k].tx.rows + if out == Done then [Other(tag, org)] else []
  {
    OtherRowTold(w.clients[k].tx, Other(tag, org), w.nextId);
  }

  lemma InsertTells(w: World, k: ClientId, tag: nat, org: Org)
    requires Told(w) && k < |w.clients| && w.clients[k].tx.Open?
    ensures Told(InsertRow(w, k, Other(tag, org)).0)
  {
    var w' := InsertRow(w, k, Other(tag, org)).0;
    InsertOnlyTx(w, k, Other(tag, org));
    InsertTold(w, k, tag, org);
    StatementTells(w, k, w');
  }

  // ---- commit ----

  lemma CommitWakes(w: World, k: ClientId)
    requires Woken(w) && k < |w.clients| && TxTold(w.clients[k].tx, w.nextId)
    ensures Woken(Commit(w, k).0)
  {
    var tx := w.clients[k].tx;
    if !Next(w).fails && tx.Open? && !tx.aborted {
      AnnouncedConcat(w.rows, tx.rows);
      EventIdsConcat(w.delivered, Collapse(tx.notifies));
      CollapseKeepsIds(tx.notifies);
      assert RunsMatch(tx.rows, Collapse(tx.notifies));
      RunsMatchConcat(w.rows, w.delivered, tx.rows, Collapse(tx.notifies));
    }
  }

  lemma CommitTells(w: World, k: ClientId)
    requires Told(w) && k < |w.clients|
    ensures Told(Commit(w, k).0)
  {
    CommitWakes(w, k);
  }

  lemma RollbackTells(w: World, k: ClientId)
    requires Told(w) && k < |w.clients|
    ensures Told(Rollback(w, k))
  {
  }

  lemma ReleaseTells(w: World, k: ClientId)
    requires Told(w) && k < |w.clients|
    ensures Told(Release(w, k))
  {
  }

  lemma FinishTells(w: World, k: ClientId, out: Outcome)
    requires Told(w) && k < |w.clients|
    ensures Told(Finish(w, k, out).0)
  {
    CommitTells(w, k);
    var (w1, committed) := Commit(w, k);
    var w2 := if out == Done then w1 else w;
    RollbackTells(w2, k);
    ReleaseTells(if out == Done && committed == Done then w1 else Rollback(w2, k), k);
  }

  lemma EnterTells(w: World, pool: Pool, org: Option<Org>)
    requires Told(w) && AllTidy(w)
    ensures Told(Enter(w, pool, org).0)
  {
    EnterKeeps(w, pool, org);
    var (w1, got) := Enter(w, pool, org);
    forall k | 0 <= k < |w1.clients|
      ensures TxTold(w1.clients[k].tx, w1.nextId)
    {
      if got.Some? && k == got.value {
        assert w1.clients[k].tx == Open(org, false, [], []);
      } else if k < |w.clients| && w.clients[k].checkedOut {
        assert w1.clients[k] == w.clients[k];
      }
    }
  }

  // ---- the theorem ----

  lemma StatementExecTells(w: World, a: Ambient, depth: nat, work: Work)
    requires work.Insert? || work.Append?
    requires AmbientServed(w, Some(a)) && Told(w)
    ensures Told(Exec(w, Some(a), depth, work).0)
  {
    var w0 := Look(w, a, depth);
    assert Told(w0);
    if work.Insert? {
      InsertTells(w0, a.client, work.tag, work.org);
    } else {
      AppendTells(w0, a.client, work.input);
    }
  }

  lemma SelectTells(w: World, a: Ambient, depth: nat)
    requires AllTidy(w) && AmbientServed(w, Some(a)) && Told(w)
    ensures Told(Query(Look(w, a, depth), a.client).0)
  {
    SelectServes(w, a, depth);
    var w0 := Look(w, a, depth);
    assert Told(w0);
    StatementTells(w0, a.client, Query(w0, a.client).0);
  }

  lemma {:induction false} ExecTells(w: World, amb: Option<Ambient>, depth: nat, work: Work)
    requires AllTidy(w) && AmbientServed(w, amb) && Told(w)
    ensures Told(Exec(w, amb, depth, work).0)
    decreases work, 1
  {
    match work
    case Skip =>
    case Throw =>
    case Insert(_, _) =>
      if amb.Some? { StatementExecTells(w, amb.value, depth, work); }
    case Append(_) =>
      if amb.Some? { StatementExecTells(w, amb.value, depth, work); }
    case Select(test, yes, no) =>
      if amb.Some? { BranchTells(w, amb.value, depth, test, yes, no); }
    case Seq(first, then_) =>
      ThenTells(w, amb, depth, first, then_, Done, work);
    case Catch(body, handler) =>
      ThenTells(w, amb, depth, body, handler, Threw, work);
    case InOrg(pool, org, body) =>
      if SafeId(org) {
        if Joins(amb, pool) {
          if amb.value.org == Some(org) { ExecTells(w, amb, depth, body); }
        } else {
          OpenedTells(w, pool, Some(org), depth, body);
        }
      }
    case InSystem(pool, body) =>
      var (effective, vars) := ScopePool(w.vars, w.env, pool);
      if effective.Some? {
        OpenedTells(w.(vars := vars), effective.value, None, depth, body);
      }
  }

  /** Two pieces of work in a row, the second run only on the given outcome of the first. */
  lemma {:induction false} ThenTells(w: World, amb: Option<Ambient>, depth: nat, a: Work, b: Work, on: Outcome,
        parent: Work)
    requires a < parent && b < parent
    requires AllTidy(w) && AmbientServed(w, amb) && Told(w)
    ensures var (w1, out) := Exec(w, amb, depth, a);
            AmbientServed(w1, amb) && Told(if out == on then Exec(w1, amb, depth, b).0 else w1)
    decreases parent, 0
  {
    ExecTells(w, amb, depth, a);
    ExecServes(w, amb, depth, a);
    var (w1, out) := Exec(w, amb, depth, a);
    if out == on { ExecTells(w1, amb, depth, b); }
  }

  /** A SELECT, and the work its result chooses. */
  lemma {:induction false} BranchTells(w: World, a: Ambient, depth: nat, test: seq<Row> -> bool, yes: Work, no: Work)
    requires AllTidy(w) && AmbientServed(w, Some(a)) && Told(w)
    ensures Told(Exec(w, Some(a), depth, Select(test, yes, no)).0)
    decreases Select(test, yes, no), 0
  {
    SelectServes(w, a, depth);
    SelectTells(w, a, depth);
    var (w1, out) := Query(Look(w, a, depth), a.client);
    if out == Done {
      ExecTells(w1, Some(a), depth, if test(Read(w1, a.client)) then yes else no);
    }
  }

  lemma {:induction false} OpenedTells(w: World, pool: Pool, org: Option<Org>, depth: nat, body: Work)
    requires AllTidy(w) && Told(w)
    ensures Told(ExecOpened(w, pool, org, depth, body).0)
    decreases body, 2
  {
    EnterKeeps(w, pool, org);
    EnterTells(w, pool, org);
    var (w1, got) := Enter(w, pool, org);
    if got.Some? {
      ExecTells(w1, Some(Ambient(got.value, pool, org)), depth + 1, body);
      var (w2, out) := Exec(w1, Some(Ambient(got.value, pool, org)), depth + 1, body);
      FinishTells(w2, got.value, out);
    }
  }
}
