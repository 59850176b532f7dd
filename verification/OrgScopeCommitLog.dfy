/** The commits of a run one by one: which rows each makes durable, and whom it wakes. */
module OrgScopeCommitLog {
  import opened Base
  import opened Text
  import opened SystemPool
  import opened OrgScope
  import opened OrgScopeDiscipline
  import opened OrgScopeWakes
  import opened OrgScopeCommits

  /** One COMMIT: the rows it makes durable, and the notifications it delivers. */
  datatype Committed = Committed(rows: seq<Row>, notes: seq<Notify>)

  /** The commit wakes for its own rows: each event id once and in order, each run once, and nobody else. */
  ghost predicate Matched(c: Committed) {
    EventIds(c.notes) == Announced(c.rows) && RunsMatch(c.rows, c.notes) && NoDuplicates(c.notes)
  }

  function AllRows(log: seq<Committed>): seq<Row> {
    if log == [] then [] else log[0].rows + AllRows(log[1..])
  }

  function AllNotes(log: seq<Committed>): seq<Notify> {
    if log == [] then [] else log[0].notes + AllNotes(log[1..])
  }

  lemma {:induction false} AllOfConcat(a: seq<Committed>, b: seq<Committed>)
    ensures AllRows(a + b) == AllRows(a) + AllRows(b) && AllNotes(a + b) == AllNotes(a) + AllNotes(b)
  {
    if a == [] {
      assert a + b == b;
    } else {
      assert (a + b)[0] == a[0] && (a + b)[1..] == a[1..] + b;
      AllOfConcat(a[1..], b);
    }
  }

  // ---- one commit ----

  function Pending(tx: Tx): seq<Notify> {
    if tx.Open? then Collapse(tx.notifies) else []
  }

  lemma {:induction false} CollapseIsDistinct(ns: seq<Notify>)
    ensures NoDuplicates(Collapse(ns))
  {
    if ns != [] {
      CollapseIsDistinct(ns[..|ns| - 1]);
    }
  }

  lemma CommitDelivers(w: World, k: ClientId)
    requires k < |w.clients| && w.clients[k].tx.Open? && TxTold(w.clients[k].tx, w.nextId)
    ensures var (w', out) := Commit(w, k);
            var tx := w.clients[k].tx;
            && w'.rows == w.rows + (if out == Done && !tx.aborted then tx.rows else [])
            && w'.delivered == w.delivered + (if out == Done && !tx.aborted then Pending(tx) else [])
            && (!tx.aborted ==> Matched(Committed(tx.rows, Pending(tx))))
  {
    var tx := w.clients[k].tx;
    CollapseIsDistinct(tx.notifies);
    if !tx.aborted {
      CollapseKeepsIds(tx.notifies);
    }
  }

  /** What the end of an opened scope delivers. */
  lemma FinishDelivers(w: World, k: ClientId, out: Outcome)
    requires k < |w.clients| && w.clients[k].tx.Open? && TxTold(w.clients[k].tx, w.nextId)
    ensures var (w', out') := Finish(w, k, out);
            var tx := w.clients[k].tx;
            && w'.delivered == w.delivered + (if out' == Done && !tx.aborted then Pending(tx) else [])
            && (!tx.aborted ==> Matched(Committed(tx.rows, Pending(tx))))
  {
    CommitDelivers(w, k);
  }

  lemma NothingIsMatched()
    ensures Matched(Committed([], []))
  {
  }

  /**
   * Beside OpenedScopeIsAllOrNothing, for any opened scope, work and failure point: what
   * the end of the scope delivers is matched with what it makes durable. So an event or
   * run is woken for at the very commit of its row, whoever was woken before.
   */
  lemma OpenedScopeWakesForWhatItCommits(w: World, pool: Pool, org: Option<Org>, depth: nat, body: Work)
    requires AllTidy(w) && Told(w)
    ensures var (w1, got) := Enter(w, pool, org);
            var (w', out) := ExecOpened(w, pool, org, depth, body);
            && (got.None? ==> w'.delivered == w.delivered)
            && (got.Some? ==>
                  var amb := Some(Ambient(got.value, pool, org));
                  var w2 := Exec(w1, amb, depth + 1, body).0;
                  var own := if out == Done && !Rejected(w1, w2, got.value)
                             then Stored(w1, amb, depth + 1, body) else [];
                  && w'.rows == w2.rows + own
                  && w2.delivered <= w'.delivered
                  && Matched(Committed(own, w'.delivered[|w2.delivered|..])))
  {
    OpenedScopeIsAllOrNothing(w, pool, org, depth, body);
    EnterKeeps(w, pool, org);
    EnterTells(w, pool, org);
    var (w1, got) := Enter(w, pool, org);
    if got.Some? {
      OpenedDelivers(w1, Ambient(got.value, pool, org), depth + 1, body);
      NothingIsMatched();
    }
  }

  /** The work of an opened scope and its end, from the world in which the work starts. */
  lemma OpenedDelivers(w1: World, a: Ambient, depth: nat, body: Work)
    requires AllTidy(w1) && AmbientServed(w1, Some(a)) && Told(w1)
    requires w1.clients[a.client].tx == Open(a.org, false, [], [])
    ensures var (w2, worked) := Exec(w1, Some(a), depth, body);
            a.client < |w2.clients|
            && var (w', out) := Finish(w2, a.client, worked);
               var commits := out == Done && !Rejected(w1, w2, a.client);
               var own := Stored(w1, Some(a), depth, body);
               && w'.rows == w2.rows + (if commits then own else [])
               && w'.delivered == w2.delivered + (if commits then Pending(w2.clients[a.client].tx) else [])
               && (commits ==> Matched(Committed(own, Pending(w2.clients[a.client].tx))))
  {
    var k := a.client;
    ExecStores(w1, a, depth, body);
    ExecTells(w1, Some(a), depth, body);
    var (w2, worked) := Exec(w1, Some(a), depth, body);
    FinishDelivers(w2, k, worked);
    FinishRows(w2, k, worked);
    assert w2.clients[k].tx.rows == [] + Stored(w1, Some(a), depth, body) == Stored(w1, Some(a), depth, body);
  }

  // ---- all commits of a run ----

  /** The commits of the scopes that the work opens, in the order in which they happen. */
  function Commits(w: World, amb: Option<Ambient>, depth: nat, work: Work): seq<Committed>
    requires amb.Some? ==> amb.value.client < |w.clients|
    decreases work, 0
  {
    match work
    case Select(test, yes, no) =>
      if amb.None? then []
      else
        var (w1, out) := Query(Look(w, amb.value, depth), amb.value.client);
        if out == Threw then []
        else if test(Read(w1, amb.value.client)) then Commits(w1, amb, depth, yes) else Commits(w1, amb, depth, no)
    case Seq(first, then_) =>
      var (w1, out) := Exec(w, amb, depth, first);
      Commits(w, amb, depth, first) + if out == Done then Commits(w1, amb, depth, then_) else []
    case Catch(body, handler) =>
      var (w1, out) := Exec(w, amb, depth, body);
      Commits(w, amb, depth, body) + if out == Threw then Commits(w1, amb, depth, handler) else []
    case InOrg(pool, org, body) =>
      if !SafeId(org) then []
      else if Joins(amb, pool) then if amb.value.org == Some(org) then Commits(w, amb, depth, body) else []
      else OpenedCommits(w, pool, Some(org), depth, body)
    case InSystem(pool, body) =>
      var (effective, vars) := ScopePool(w.vars, w.env, pool);
      if effective.None? then [] else OpenedCommits(w.(vars := vars), effective.value, None, depth, body)
    case _ => []
  }

  /** Those of the work inside, then the scope's own of all it stored, if it succeeds and no query was rejected. */
  function OpenedCommits(w: World, pool: Pool, org: Option<Org>, depth: nat, body: Work): seq<Committed>
    decreases body, 1
  {
    var (w1, got) := Enter(w, pool, org);
    if got.None? then []
    else
      var amb := Some(Ambient(got.value, pool, org));
      var (w2, worked) := Exec(w1, amb, depth + 1, body);
      Commits(w1, amb, depth + 1, body)
      + if Finish(w2, got.value, worked).1 == Done && !Rejected(w1, w2, got.value)
        then [Committed(Stored(w1, amb, depth + 1, body), Pending(w2.clients[got.value].tx))] else []
  }

  /** The log accounts for all that became durable and all that was delivered, and each of its commits is matched. */
  ghost predicate Logged(w: World, w': World, log: seq<Committed>) {
    && w'.rows == w.rows + AllRows(log)
    && w'.delivered == w.delivered + AllNotes(log)
    && forall c :: c in log ==> Matched(c)
  }

  lemma LoggedTwice(w: World, w1: World, w2: World, a: seq<Committed>, b: seq<Committed>)
    requires Logged(w, w1, a) && Logged(w1, w2, b)
    ensures Logged(w, w2, a + b)
  {
    AllOfConcat(a, b);
    Regroup(w.rows, AllRows(a), AllRows(b));
    Regroup(w.delivered, AllNotes(a), AllNotes(b));
  }

  lemma Regroup<T>(a: seq<T>, b: seq<T>, c: seq<T>)
    ensures (a + b) + c == a + (b + c)
  {
  }

  lemma LoggedOne(w: World, w': World, c: Committed)
    requires w'.rows == w.rows + c.rows && w'.delivered == w.delivered + c.notes && Matched(c)
    ensures Logged(w, w', [c])
  {
    assert [c][1..] == [];
    assert c.rows + [] == c.rows && c.notes + [] == c.notes;
  }

  lemma LoggedNothing(w: World, w': World)
    requires w'.rows == w.rows && w'.delivered == w.delivered
    ensures Logged(w, w', [])
  {
  }

  /**
   * Any work at any failure point: the durable rows grow by the rows of its commits and
   * the delivered notifications by theirs, in the same order, each commit matched.
   */
  lemma {:induction false} ExecCommits(w: World, amb: Option<Ambient>, depth: nat, work: Work)
    requires AllTidy(w) && AmbientServed(w, amb) && Told(w)
    ensures Logged(w, Exec(w, amb, depth, work).0, Commits(w, amb, depth, work))
    decreases work, 1
  {
    match work
    case Skip => LoggedNothing(w, w);
    case Throw => LoggedNothing(w, w);
    case Insert(tag, org) =>
      if amb.Some? { InsertOnlyTx(Look(w, amb.value, depth), amb.value.client, Other(tag, org)); }
      LoggedNothing(w, Exec(w, amb, depth, work).0);
    case Append(input) =>
      if amb.Some? { AppendOnlyTx(Look(w, amb.value, depth), amb.value.client, input); }
      LoggedNothing(w, Exec(w, amb, depth, work).0);
    case Select(test, yes, no) =>
      LoggedNothing(w, w);
      if amb.Some? {
        SelectServes(w, amb.value, depth);
        SelectTells(w, amb.value, depth);
        var (w1, out) := Query(Look(w, amb.value, depth), amb.value.client);
        if out == Done { ExecCommits(w1, amb, depth, if test(Read(w1, amb.value.client)) then yes else no); }
      }
    case Seq(first, then_) =>
      ThenCommits(w, amb, depth, first, then_, Done, work);
    case Catch(body, handler) =>
      ThenCommits(w, amb, depth, body, handler, Threw, work);
    case InOrg(pool, org, body) =>
      LoggedNothing(w, w);
      if SafeId(org) {
        if Joins(amb, pool) {
          if amb.value.org == Some(org) { ExecCommits(w, amb, depth, body); }
        } else {
          OpenedLogs(w, pool, Some(org), depth, body);
        }
      }
    case InSystem(pool, body) =>
      var (effective, vars) := ScopePool(w.vars, w.env, pool);
      LoggedNothing(w, w.(vars := vars));
      if effective.Some? {
        OpenedLogs(w.(vars := vars), effective.value, None, depth, body);
      }
  }

  /** Two pieces of work in a row, the second run only on the given outcome of the first. */
  lemma {:induction false} ThenCommits(w: World, amb: Option<Ambient>, depth: nat, a: Work, b: Work, on: Outcome,
        parent: Work)
    requires a < parent && b < parent
    requires AllTidy(w) && AmbientServed(w, amb) && Told(w)
    ensures var (w1, out) := Exec(w, amb, depth, a);
            AmbientServed(w1, amb)
            && Logged(w, if out == on then Exec(w1, amb, depth, b).0 else w1,
                      Commits(w, amb, depth, a) + if out == on then Commits(w1, amb, depth, b) else [])
    decreases parent, 0
  {
    ExecCommits(w, amb, depth, a);
    ExecServes(w, amb, depth, a);
    ExecTells(w, amb, depth, a);
    var (w1, out) := Exec(w, amb, depth, a);
    if out == on {
      ExecCommits(w1, amb, depth, b);
      LoggedTwice(w, w1, Exec(w1, amb, depth, b).0, Commits(w, amb, depth, a), Commits(w1, amb, depth, b));
    } else {
      LoggedNothing(w1, w1);
      LoggedTwice(w, w1, w1, Commits(w, amb, depth, a), []);
    }
  }

  lemma {:induction false} OpenedLogs(w: World, pool: Pool, org: Option<Org>, depth: nat, body: Work)
    requires AllTidy(w) && Told(w)
    ensures Logged(w, ExecOpened(w, pool, org, depth, body).0, OpenedCommits(w, pool, org, depth, body))
    decreases body, 2
  {
    EnterKeeps(w, pool, org);
    EnterTells(w, pool, org);
    var (w1, got) := Enter(w, pool, org);
    if got.Some? {
      var k, a := got.value, Ambient(got.value, pool, org);
      ExecCommits(w1, Some(a), depth + 1, body);
      var (w2, worked) := Exec(w1, Some(a), depth + 1, body);
      OpenedDelivers(w1, a, depth + 1, body);
      var inside := Commits(w1, Some(a), depth + 1, body);
      var (w', out) := Finish(w2, k, worked);
      if out == Done && !Rejected(w1, w2, k) {
        var own := Committed(Stored(w1, Some(a), depth + 1, body), Pending(w2.clients[k].tx));
        LoggedOne(w2, w', own);
        LoggedTwice(w1, w2, w', inside, [own]);
      } else {
        LoggedNothing(w2, w');
        LoggedTwice(w1, w2, w', inside, []);
      }
    } else {
      LoggedNothing(w, w1);
    }
  }
}
