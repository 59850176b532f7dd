/** Scope discipline: what every work tree keeps at every failure point. */
module OrgScopeDiscipline {
  import opened Base
  import opened Text
  import opened SystemPool
  import opened OrgScope

  // ---- counting checked-out connections ----

  lemma {:induction false} HeldUpdate(clients: seq<Client>, k: nat, c: Client)
    requires k < |clients|
    ensures Held(clients[k := c])
         == Held(clients) - (if clients[k].checkedOut then 1 else 0) + (if c.checkedOut then 1 else 0)
  {
    var n := |clients| - 1;
    var u := clients[k := c];
    if k == n {
      assert u[..n] == clients[..n];
    } else {
      assert u[..n] == clients[..n][k := c];
      HeldUpdate(clients[..n], k, c);
    }
  }

  lemma HeldSnoc(clients: seq<Client>, c: Client)
    ensures Held(clients + [c]) == Held(clients) + if c.checkedOut then 1 else 0
  {
    assert (clients + [c])[..|clients|] == clients;
  }

  lemma {:induction false} HeldSame(a: seq<Client>, b: seq<Client>)
    requires |a| <= |b|
    requires forall k :: 0 <= k < |b| ==> (b[k].checkedOut <==> k < |a| && a[k].checkedOut)
    ensures Held(a) == Held(b)
    decreases |b|
  {
    if b != [] {
      var n := |b| - 1;
      if |a| == |b| {
        HeldSame(a[..n], b[..n]);
      } else {
        HeldSame(a, b[..n]);
      }
    }
  }

  // ---- the discipline ----

  /** Released once per finished checkout, and no transaction (so no org setting) outlives its checkout. */
  predicate Tidy(c: Client) {
    && c.checkouts == c.releases + (if c.checkedOut then 1 else 0)
    && (!c.checkedOut ==> c.tx.NoTx?)
  }

  ghost predicate AllTidy(w: World) {
    forall k :: 0 <= k < |w.clients| ==> Tidy(w.clients[k])
  }

  /** The connection of an ambient scope: checked out, alive, in a transaction whose org setting is the scope's. */
  predicate Serves(a: Ambient, c: Client) {
    c.checkedOut && !c.dead && c.pool == a.pool && c.tx.Open? && c.tx.org == a.org
  }

  predicate AmbientServed(w: World, amb: Option<Ambient>) {
    amb.Some? ==> amb.value.client < |w.clients| && Serves(amb.value, w.clients[amb.value.client])
  }

  /**
   * Checked-out connections other than the ambient one, and dead ones, are untouched;
   * none is taken or given back for good.
   */
  ghost predicate Balanced(w: World, amb: Option<Ambient>, w': World) {
    && |w.clients| <= |w'.clients|
    && (forall k :: 0 <= k < |w'.clients| ==>
         (w'.clients[k].checkedOut <==> k < |w.clients| && w.clients[k].checkedOut))
    && (forall k :: 0 <= k < |w.clients| && (w.clients[k].checkedOut || w.clients[k].dead)
                    && (amb.Some? ==> k != amb.value.client) ==>
          w'.clients[k] == w.clients[k])
  }

  /** A statement sees its scope served, and one connection held for each enclosing scope that opened one. */
  predicate Disciplined(e: Seen, others: int) {
    Serves(e.ambient, e.client) && e.held == others + e.depth
  }

  ghost predicate SeenDisciplined(w: World, w': World, others: int) {
    && |w.seen| <= |w'.seen| && w'.seen[..|w.seen|] == w.seen
    && forall j :: |w.seen| <= j < |w'.seen| ==> Disciplined(w'.seen[j], others)
  }

  // ---- single steps ----

  /** A transaction is aborted exactly when it was before, or a query of it has been rejected since. */
  predicate AbortedIfRefused(c: Client, c': Client)
    requires c.tx.Open? && c'.tx.Open?
  {
    c.refused <= c'.refused && (c'.tx.aborted <==> c.tx.aborted || c.refused < c'.refused)
  }

  /** A query touches nothing but the transaction of its connection, and leaves that open under the same org. */
  ghost predicate OnlyTx(w: World, k: ClientId, w': World) {
    && k < |w.clients| == |w'.clients|
    && (forall j :: 0 <= j < |w.clients| && j != k ==> w'.clients[j] == w.clients[j])
    && w'.clients[k] == w.clients[k].(tx := w'.clients[k].tx, refused := w'.clients[k].refused)
    && (w.clients[k].tx.Open? ==>
          && w'.clients[k].tx.Open? && w'.clients[k].tx.org == w.clients[k].tx.org
          && AbortedIfRefused(w.clients[k], w'.clients[k]))
    && w'.seen == w.seen && w'.bypass == w.bypass && w'.rows == w.rows && w'.delivered == w.delivered
  }

  lemma QueryOnlyTx(w: World, k: ClientId)
    requires k < |w.clients|
    ensures OnlyTx(w, k, Query(w, k).0)
  {
  }

  lemma RefuseOnlyTx(w: World, k: ClientId)
    requires k < |w.clients|
    ensures OnlyTx(w, k, Refuse(w, k))
  {
  }

  lemma AddRowOnlyTx(w: World, k: ClientId, row: Row)
    requires k < |w.clients|
    ensures OnlyTx(w, k, SetTx(w, k, AddRow(w.clients[k].tx, row)))
  {
  }

  lemma OnlyTxTwice(w: World, k: ClientId, w1: World, w2: World)
    requires OnlyTx(w, k, w1) && OnlyTx(w1, k, w2)
    ensures OnlyTx(w, k, w2)
  {
  }

  lemma InsertOnlyTx(w: World, k: ClientId, row: Row)
    requires k < |w.clients|
    ensures OnlyTx(w, k, InsertRow(w, k, row).0)
  {
    QueryOnlyTx(w, k);
    var (w1, out) := Query(w, k);
    if out == Done {
      if Permitted(w1, k, row.org) {
        AddRowOnlyTx(w1, k, row);
        OnlyTxTwice(w, k, w1, SetTx(w1, k, AddRow(w1.clients[k].tx, row)));
      } else {
        RefuseOnlyTx(w1, k);
        OnlyTxTwice(w, k, w1, Refuse(w1, k));
      }
    }
  }

  lemma NotifyOnlyTx(w: World, k: ClientId, n: Notify)
    requires k < |w.clients|
    ensures OnlyTx(w, k, SendNotify(w, k, n).0)
  {
  }

  lemma WakeOnlyTx(w: World, k: ClientId, id: EventId, run: Option<string>)
    requires k < |w.clients|
    ensures OnlyTx(w, k, WakeListeners(w, k, id, run).0)
  {
    if run.None? {
      NotifyOnlyTx(w, k, EventAppended(id));
    } else if SafeId(run.value) {
      NotifyOnlyTx(w, k, RunActivity(run.value));
      var (w1, woken) := SendNotify(w, k, RunActivity(run.value));
      NotifyOnlyTx(w1, k, EventAppended(id));
      OnlyTxTwice(w, k, w1, SendNotify(w1, k, EventAppended(id)).0);
    }
  }

  lemma InsertEventOnlyTx(w: World, k: ClientId, org: Org, run: Option<string>)
    requires k < |w.clients|
    ensures OnlyTx(w, k, InsertEvent(w, k, org, run).0)
  {
    InsertOnlyTx(w, k, Event(w.nextId, org, run));
    var w1 := InsertRow(w, k, Event(w.nextId, org, run)).0;
    assert OnlyTx(w1, k, w1.(nextId := w.nextId + 1));
    OnlyTxTwice(w, k, w1, w1.(nextId := w.nextId + 1));
  }

  lemma AppendOnlyTx(w: World, k: ClientId, input: EventInput)
    requires k < |w.clients|
    ensures OnlyTx(w, k, AppendEvent(w, k, input).0)
  {
    if !Blank(input.org) && input.payloadOk {
      InsertEventOnlyTx(w, k, input.org, input.run);
      var (w1, inserted) := InsertEvent(w, k, input.org, input.run);
      WakeOnlyTx(w1, k, w.nextId, input.run);
      if inserted == Done {
        OnlyTxTwice(w, k, w1, WakeListeners(w1, k, w.nextId, input.run).0);
      }
    }
  }

  lemma StatementKeeps(w: World, a: Ambient, w': World)
    requires AllTidy(w) && AmbientServed(w, Some(a)) && OnlyTx(w, a.client, w')
    ensures AllTidy(w') && AmbientServed(w', Some(a)) && Balanced(w, Some(a), w')
  {
  }

  lemma LookSees(w: World, a: Ambient, depth: nat, w': World, others: int)
    requires AmbientServed(w, Some(a)) && Held(w.clients) == others + depth
    requires w'.seen == Look(w, a, depth).seen
    ensures SeenDisciplined(w, w', others)
  {
  }

  /** One connection more is held, and nothing else about the others or about the rows has changed. */
  ghost predicate Gained(w: World, k: ClientId, w': World) {
    && AllTidy(w') && w'.seen == w.seen && w'.bypass == w.bypass
    && w'.rows == w.rows && w'.delivered == w.delivered && w'.nextId == w.nextId
    && |w'.clients| == (if k < |w.clients| then |w.clients| else |w.clients| + 1) && k <= |w.clients|
    && (k < |w.clients| ==> !w.clients[k].checkedOut && !w.clients[k].dead)
    && w'.clients[k].checkedOut && !w'.clients[k].dead
    && (forall j :: 0 <= j < |w'.clients| && j != k ==> j < |w.clients| && w'.clients[j] == w.clients[j])
  }

  lemma CheckoutGains(w: World, pool: Pool)
    requires AllTidy(w)
    ensures var (w1, got) := Checkout(w, pool);
            && (got.None? ==> w1 == Advance(w))
            && (got.Some? ==> Gained(w, got.value, w1) && w1.clients[got.value].pool == pool
                              && w1.clients[got.value].tx.NoTx?)
  {
  }

  /** The connection of a failed opening is rolled back and released. */
  lemma BackOut(w: World, k: ClientId, w': World)
    requires AllTidy(w) && Gained(w, k, w')
    ensures var w1 := Release(Rollback(w', k), k);
            && AllTidy(w1) && Balanced(w, None, w1) && w1.seen == w.seen && w1.bypass == w.bypass
            && w1.rows == w.rows && w1.delivered == w.delivered && w1.nextId == w.nextId
  {
  }

  lemma SetLocalKeeps(w: World, k: ClientId, org: Option<Org>)
    requires k < |w.clients| && w.clients[k].tx == Open(None, false, [], [])
    ensures var (w1, out) := SetLocal(w, k, org);
            && |w1.clients| == |w.clients| && w1.seen == w.seen && w1.bypass == w.bypass
            && w1.rows == w.rows && w1.delivered == w.delivered && w1.nextId == w.nextId
            && (forall j :: 0 <= j < |w.clients| && j != k ==> w1.clients[j] == w.clients[j])
            && w1.clients[k] == w.clients[k].(tx := w1.clients[k].tx, refused := w1.clients[k].refused)
            && (out == Done ==> w1.clients[k].tx == Open(org, false, [], []))
  {
  }

  lemma BeginGains(w: World, k: ClientId, w1: World)
    requires Gained(w, k, w1)
    ensures var (w2, out) := Begin(w1, k);
            Gained(w, k, w2) && w2.clients[k].pool == w1.clients[k].pool
            && (out == Done ==> w2.clients[k].tx == Open(None, false, [], []))
  {
  }

  lemma SetLocalGains(w: World, k: ClientId, w1: World, org: Option<Org>)
    requires Gained(w, k, w1) && w1.clients[k].tx == Open(None, false, [], [])
    ensures var (w2, out) := SetLocal(w1, k, org);
            Gained(w, k, w2) && w2.clients[k].pool == w1.clients[k].pool
            && (out == Done ==> w2.clients[k].tx == Open(org, false, [], []))
  {
    SetLocalKeeps(w1, k, org);
  }

  /** Opening a scope either fails and gives everything back, or holds exactly one connection more. */
  lemma EnterKeeps(w: World, pool: Pool, org: Option<Org>)
    requires AllTidy(w)
    ensures var (w1, got) := Enter(w, pool, org);
            && AllTidy(w1) && w1.seen == w.seen && w1.bypass == w.bypass
            && w1.rows == w.rows && w1.delivered == w.delivered && w1.nextId == w.nextId
            && (got.None? ==> Balanced(w, None, w1))
            && (got.Some? ==>
                  && Gained(w, got.value, w1) && w1.clients[got.value].pool == pool
                  && w1.clients[got.value].tx == Open(org, false, [], []))
  {
    CheckoutGains(w, pool);
    var (w1, got) := Checkout(w, pool);
    if got.Some? {
      var k := got.value;
      BeginGains(w, k, w1);
      var (w2, begun) := Begin(w1, k);
      if begun == Threw {
        BackOut(w, k, w2);
      } else {
        SetLocalGains(w, k, w2, org);
        var (w3, set_) := SetLocal(w2, k, org);
        if set_ == Threw {
          BackOut(w, k, w3);
        }
      }
    }
  }

  lemma FinishKeeps(w: World, k: ClientId, out: Outcome)
    requires AllTidy(w) && k < |w.clients| && w.clients[k].checkedOut
    ensures var w1 := Finish(w, k, out).0;
            && AllTidy(w1) && |w1.clients| == |w.clients| && w1.seen == w.seen
            && !w1.clients[k].checkedOut
            && forall j :: 0 <= j < |w.clients| && j != k ==> w1.clients[j] == w.clients[j]
  {
  }

  // ---- the theorem ----

  /** One statement under an ambient scope. */
  lemma StatementKeepsDiscipline(w: World, a: Ambient, depth: nat, work: Work, others: int)
    requires work.Insert? || work.Append?
    requires AllTidy(w) && AmbientServed(w, Some(a)) && Held(w.clients) == others + depth
    ensures var w' := Exec(w, Some(a), depth, work).0;
            AllTidy(w') && AmbientServed(w', Some(a)) && Balanced(w, Some(a), w') && SeenDisciplined(w, w', others)
  {
    var w' := Exec(w, Some(a), depth, work).0;
    var w0 := Look(w, a, depth);
    if work.Append? {
      AppendOnlyTx(w0, a.client, work.input);
    } else {
      InsertOnlyTx(w0, a.client, Other(work.tag, work.org));
    }
    StatementKeeps(w0, a, w');
    LookSees(w, a, depth, w', others);
  }

  /** The query of a SELECT under an ambient scope. */
  lemma SelectKeepsDiscipline(w: World, a: Ambient, depth: nat, others: int)
    requires AllTidy(w) && AmbientServed(w, Some(a)) && Held(w.clients) == others + depth
    ensures var w' := Query(Look(w, a, depth), a.client).0;
            AllTidy(w') && AmbientServed(w', Some(a)) && Balanced(w, Some(a), w') && SeenDisciplined(w, w', others)
            && Held(w'.clients) == Held(w.clients) && OnlyTx(Look(w, a, depth), a.client, w')
  {
    var w0 := Look(w, a, depth);
    var w' := Query(w0, a.client).0;
    QueryOnlyTx(w0, a.client);
    StatementKeeps(w0, a, w');
    LookSees(w, a, depth, w', others);
    HeldSame(w.clients, w'.clients);
  }

  /** What later proofs need of it. */
  lemma SelectServes(w: World, a: Ambient, depth: nat)
    requires AllTidy(w) && AmbientServed(w, Some(a))
    ensures var w' := Query(Look(w, a, depth), a.client).0;
            AllTidy(w') && AmbientServed(w', Some(a)) && OnlyTx(Look(w, a, depth), a.client, w')
            && w'.nextId == w.nextId
  {
    SelectKeepsDiscipline(w, a, depth, Held(w.clients) - depth);
  }

  lemma BalancedTwice(w: World, amb: Option<Ambient>, w1: World, w2: World)
    requires Balanced(w, amb, w1) && Balanced(w1, amb, w2)
    ensures Balanced(w, amb, w2)
  {
    forall k | 0 <= k < |w.clients| && w.clients[k].checkedOut && (amb.Some? ==> k != amb.value.client)
      ensures w2.clients[k] == w.clients[k]
    {
      assert w1.clients[k] == w.clients[k];
    }
  }

  lemma SeenTwice(w: World, w1: World, w2: World, others: int)
    requires SeenDisciplined(w, w1, others) && SeenDisciplined(w1, w2, others)
    ensures SeenDisciplined(w, w2, others)
  {
    assert w2.seen[..|w.seen|] == w2.seen[..|w1.seen|][..|w.seen|];
    forall j | |w.seen| <= j < |w2.seen|
      ensures Disciplined(w2.seen[j], others)
    {
      if j < |w1.seen| {
        assert w2.seen[j] == w2.seen[..|w1.seen|][j] == w1.seen[j];
      }
    }
  }

  lemma {:induction false} ExecKeepsDiscipline(w: World, amb: Option<Ambient>, depth: nat, work: Work, others: int)
    requires AllTidy(w) && AmbientServed(w, amb) && Held(w.clients) == others + depth
    ensures var w' := Exec(w, amb, depth, work).0;
            AllTidy(w') && AmbientServed(w', amb) && Balanced(w, amb, w') && SeenDisciplined(w, w', others)
    decreases work, 1
  {
    match work
    case Skip =>
    case Throw =>
    case Insert(_, _) =>
      if amb.Some? { StatementKeepsDiscipline(w, amb.value, depth, work, others); }
    case Append(_) =>
      if amb.Some? { StatementKeepsDiscipline(w, amb.value, depth, work, others); }
    case Select(test, yes, no) =>
      if amb.Some? {
        BranchKeepsDiscipline(w, amb.value, depth, test, yes, no, others, work);
      }
    case Seq(first, then_) =>
      ThenKeepsDiscipline(w, amb, depth, first, then_, Done, others, work);
    case Catch(body, handler) =>
      ThenKeepsDiscipline(w, amb, depth, body, handler, Threw, others, work);
    case InOrg(pool, org, body) =>
      InOrgKeepsDiscipline(w, amb, depth, pool, org, body, others, work);
    case InSystem(pool, body) =>
      InSystemKeepsDiscipline(w, amb, depth, pool, body, others, work);
  }

  lemma {:induction false} InOrgKeepsDiscipline(w: World, amb: Option<Ambient>, depth: nat, pool: Pool, org: Org,
        body: Work, others: int, work: Work)
    requires work == InOrg(pool, org, body)
    requires AllTidy(w) && AmbientServed(w, amb) && Held(w.clients) == others + depth
    ensures var w' := Exec(w, amb, depth, work).0;
            AllTidy(w') && AmbientServed(w', amb) && Balanced(w, amb, w') && SeenDisciplined(w, w', others)
    decreases work, 0
  {
    if SafeId(org) {
      if Joins(amb, pool) {
        if amb.value.org == Some(org) {
          ExecKeepsDiscipline(w, amb, depth, body, others);
        }
      } else {
        OpenedKeepsDiscipline(w, amb, pool, Some(org), depth, body, others);
      }
    }
  }

  lemma {:induction false} InSystemKeepsDiscipline(w: World, amb: Option<Ambient>, depth: nat, pool: Pool, body: Work,
        others: int, work: Work)
    requires work == InSystem(pool, body)
    requires AllTidy(w) && AmbientServed(w, amb) && Held(w.clients) == others + depth
    ensures var w' := Exec(w, amb, depth, work).0;
            AllTidy(w') && AmbientServed(w', amb) && Balanced(w, amb, w') && SeenDisciplined(w, w', others)
    decreases work, 0
  {
    var (effective, vars) := ScopePool(w.vars, w.env, pool);
    if effective.Some? {
      OpenedKeepsDiscipline(w.(vars := vars), amb, effective.value, None, depth, body, others);
    }
  }

  /** What later proofs need of it. */
  lemma ExecServes(w: World, amb: Option<Ambient>, depth: nat, work: Work)
    requires AllTidy(w) && AmbientServed(w, amb)
    ensures var w' := Exec(w, amb, depth, work).0; AllTidy(w') && AmbientServed(w', amb)
  {
    ExecKeepsDiscipline(w, amb, depth, work, Held(w.clients) - depth);
  }

  /** Two pieces of work in a row, the second run only on the given outcome of the first. */
  lemma {:induction false} ThenKeepsDiscipline(w: World, amb: Option<Ambient>, depth: nat, a: Work, b: Work,
        on: Outcome, others: int, parent: Work)
    requires a < parent && b < parent
    requires AllTidy(w) && AmbientServed(w, amb) && Held(w.clients) == others + depth
    ensures var (w1, out) := Exec(w, amb, depth, a);
            AmbientServed(w1, amb)
            && var w' := if out == on then Exec(w1, amb, depth, b).0 else w1;
            AllTidy(w') && AmbientServed(w', amb) && Balanced(w, amb, w') && SeenDisciplined(w, w', others)
    decreases parent, 0
  {
    var (w1, out) := Exec(w, amb, depth, a);
    ExecKeepsDiscipline(w, amb, depth, a, others);
    HeldSame(w.clients, w1.clients);
    if out == on {
      ExecKeepsDiscipline(w1, amb, depth, b, others);
      var w2 := Exec(w1, amb, depth, b).0;
      BalancedTwice(w, amb, w1, w2);
      SeenTwice(w, w1, w2, others);
    }
  }

  /** A SELECT, and the work its result chooses. */
  lemma {:induction false} BranchKeepsDiscipline(w: World, a: Ambient, depth: nat, test: seq<Row> -> bool, yes: Work,
        no: Work, others: int, parent: Work)
    requires yes < parent && no < parent
    requires AllTidy(w) && AmbientServed(w, Some(a)) && Held(w.clients) == others + depth
    ensures var w' := Exec(w, Some(a), depth, Select(test, yes, no)).0;
            AllTidy(w') && AmbientServed(w', Some(a)) && Balanced(w, Some(a), w') && SeenDisciplined(w, w', others)
    decreases parent, 0
  {
    SelectKeepsDiscipline(w, a, depth, others);
    var (w1, out) := Query(Look(w, a, depth), a.client);
    if out == Done {
      var next := if test(Read(w1, a.client)) then yes else no;
      ExecKeepsDiscipline(w1, Some(a), depth, next, others);
      var w2 := Exec(w1, Some(a), depth, next).0;
      BalancedTwice(w, Some(a), w1, w2);
      SeenTwice(w, w1, w2, others);
    }
  }

  /** A connection gained, used by the work, and given back leaves the books as they were. */
  lemma GivenBack(w: World, amb: Option<Ambient>, w1: World, k: ClientId, w2: World, w3: World)
    requires AmbientServed(w, amb) && Gained(w, k, w1)
    requires |w1.clients| <= |w2.clients| == |w3.clients|
    requires forall j :: 0 <= j < |w2.clients| ==>
        (w2.clients[j].checkedOut <==> j < |w1.clients| && w1.clients[j].checkedOut)
    requires forall j :: 0 <= j < |w1.clients| && (w1.clients[j].checkedOut || w1.clients[j].dead) && j != k ==>
        w2.clients[j] == w1.clients[j]
    requires !w3.clients[k].checkedOut
    requires forall j :: 0 <= j < |w2.clients| && j != k ==> w3.clients[j] == w2.clients[j]
    ensures AmbientServed(w3, amb) && Balanced(w, None, w3)
  {
    forall j | 0 <= j < |w3.clients|
      ensures w3.clients[j].checkedOut <==> j < |w.clients| && w.clients[j].checkedOut
      ensures j < |w.clients| && (w.clients[j].checkedOut || w.clients[j].dead) ==> w3.clients[j] == w.clients[j]
    {
      if j < |w.clients| && j != k {
        assert w1.clients[j] == w.clients[j];
      }
    }
  }

  /** The end of an opened scope, from what its work has kept. */
  lemma CloseOpened(w: World, amb: Option<Ambient>, w1: World, a: Ambient, w2: World, out: Outcome, others: int)
    requires AmbientServed(w, amb) && Gained(w, a.client, w1)
    requires AllTidy(w2) && AmbientServed(w2, Some(a)) && Balanced(w1, Some(a), w2) && SeenDisciplined(w1, w2, others)
    ensures var w' := Finish(w2, a.client, out).0;
            AllTidy(w') && AmbientServed(w', amb) && Balanced(w, None, w') && SeenDisciplined(w, w', others)
  {
    FinishKeeps(w2, a.client, out);
    GivenBack(w, amb, w1, a.client, w2, Finish(w2, a.client, out).0);
  }

  lemma {:induction false} OpenedKeepsDiscipline(w: World, amb: Option<Ambient>, pool: Pool,
        org: Option<Org>, depth: nat, body: Work, others: int)
    requires AllTidy(w) && AmbientServed(w, amb) && Held(w.clients) == others + depth
    ensures var w' := ExecOpened(w, pool, org, depth, body).0;
            AllTidy(w') && AmbientServed(w', amb) && Balanced(w, None, w') && SeenDisciplined(w, w', others)
    decreases body, 2
  {
    EnterKeeps(w, pool, org);
    var (w1, got) := Enter(w, pool, org);
    if got.Some? {
      var k := got.value;
      var a := Ambient(k, pool, org);
      assert Held(w1.clients) == others + (depth + 1) by { EnterHeld(w.clients, w1.clients, k); }
      ExecKeepsDiscipline(w1, Some(a), depth + 1, body, others);
      var (w2, out) := Exec(w1, Some(a), depth + 1, body);
      assert ExecOpened(w, pool, org, depth, body) == Finish(w2, k, out);
      CloseOpened(w, amb, w1, a, w2, out, others);
    } else {
      BalancedServes(w, amb, w1);
    }
  }

  lemma BalancedServes(w: World, amb: Option<Ambient>, w': World)
    requires AmbientServed(w, amb) && Balanced(w, None, w')
    ensures AmbientServed(w', amb)
  {
  }

  lemma EnterHeld(a: seq<Client>, b: seq<Client>, k: nat)
    requires k <= |a| && |b| == (if k < |a| then |a| else |a| + 1)
    requires b[k].checkedOut && (k < |a| ==> !a[k].checkedOut)
    requires forall j :: 0 <= j < |b| && j != k ==> j < |a| && b[j] == a[j]
    ensures Held(b) == Held(a) + 1
  {
    if k < |a| {
      assert b == a[k := b[k]];
      HeldUpdate(a, k, b[k]);
    } else {
      assert b == a + [b[k]];
      HeldSnoc(a, b[k]);
    }
  }
}
