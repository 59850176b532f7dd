/**
 * The scopes as the source runs them: step by step on shared pools and connections,
 * each step updating them in place. Every method does exactly what its function does,
 * and whole scopes keep the discipline and owe no wake to a durable row.
 */
module ScopedDatabase {
  import opened Base
  import opened Text
  import opened SystemPool
  import opened OrgScope
  import opened OrgScopeDiscipline
  import opened OrgScopeWakes

  class Database {
    var clients: seq<Client>
    var rows: seq<Row>
    var delivered: seq<Notify>
    var nextId: EventId
    var tape: seq<Choice>
    const bypass: set<Pool>
    var vars: Vars
    const env: Option<string>
    ghost var seen: seq<Seen>

    ghost function View(): World
      reads this
    {
      World(clients, rows, delivered, nextId, tape, bypass, vars, env, seen)
    }

    /** Connections are released as often as checked out; wakes delivered and queued match the rows they are for. */
    ghost predicate Valid()
      reads this
    {
      AllTidy(View()) && Told(View())
    }

    constructor (tape: seq<Choice>, bypass: set<Pool>, env: Option<string>)
      ensures Valid()
      ensures View() == World([], [], [], 1, tape, bypass, INITIAL, env, [])
    {
      this.clients, this.rows, this.delivered, this.nextId := [], [], [], 1;
      this.tape, this.bypass, this.vars, this.env, this.seen := tape, bypass, INITIAL, env, [];
    }

    method Draw() returns (c: Choice)
      modifies this`tape
      ensures c == Next(old(View())) && View() == Advance(old(View()))
    {
      if tape == [] {
        return Choice(false, 0);
      }
      c := tape[0];
      tape := tape[1..];
    }

    /** PostgreSQL rejects a query and aborts its transaction. */
    method Reject(k: ClientId)
      requires k < |clients|
      modifies this`clients
      ensures View() == Refuse(old(View()), k)
    {
      clients := clients[k := clients[k].(tx := Abort(clients[k].tx), refused := clients[k].refused + 1)];
    }

    method RunQuery(k: ClientId) returns (out: Outcome)
      requires k < |clients|
      modifies this`tape, this`clients
      ensures (View(), out) == Query(old(View()), k)
    {
      var c := Draw();
      if c.fails || (clients[k].tx.Open? && clients[k].tx.aborted) {
        Reject(k);
        return Threw;
      }
      out := Done;
    }

    method RunInsert(k: ClientId, row: Row) returns (out: Outcome)
      requires k < |clients|
      modifies this`tape, this`clients
      ensures (View(), out) == InsertRow(old(View()), k, row)
    {
      out := RunQuery(k);
      if out == Done {
        if Permits(clients[k], bypass, row.org) {
          clients := clients[k := clients[k].(tx := AddRow(clients[k].tx, row))];
        } else {
          Reject(k);
          out := Threw;
        }
      }
    }

    /** A SELECT: the rows within the policy, durable ones first, then the transaction's own. */
    method RunSelect(k: ClientId) returns (out: Outcome, found: seq<Row>)
      requires k < |clients|
      modifies this`tape, this`clients
      ensures (View(), out) == Query(old(View()), k) && (out == Done ==> found == Read(View(), k))
      ensures out == Done && clients[k].tx.Open? ==> forall row :: row in found <==>
                (row in rows || row in clients[k].tx.rows)
                && (clients[k].pool in bypass || clients[k].tx.org == Some(row.org))
    {
      found := [];
      out := RunQuery(k);
      if out == Done {
        found := Shown(clients[k], bypass, rows + if clients[k].tx.Open? then clients[k].tx.rows else []);
      }
    }

    method RunNotify(k: ClientId, n: Notify) returns (out: Outcome)
      requires k < |clients|
      modifies this`tape, this`clients
      ensures (View(), out) == SendNotify(old(View()), k, n)
    {
      out := RunQuery(k);
      if out == Done {
        clients := clients[k := clients[k].(tx := AddNotify(clients[k].tx, n))];
      }
    }

    method AppendAllocatorEvent(k: ClientId, input: EventInput) returns (out: Outcome)
      requires k < |clients|
      modifies this`tape, this`clients, this`nextId
      ensures (View(), out) == AppendEvent(old(View()), k, input)
      ensures old(Valid() && clients[k].checkedOut && clients[k].tx.Open?) ==>
                Valid() && OnlyTx(old(View()), k, View())
    {
      if Valid() && clients[k].checkedOut && clients[k].tx.Open? {
        AppendOnlyTx(View(), k, input);
        AppendTells(View(), k, input);
      }
      if Blank(input.org) || !input.payloadOk {
        return Threw;
      }
      var id := nextId;
      out := RunInsert(k, Event(id, input.org, input.run));
      nextId := id + 1;
      if out == Threw {
        return;
      }
      if input.run.Some? {
        if !SafeId(input.run.value) {
          return Threw;
        }
        out := RunNotify(k, RunActivity(input.run.value));
        if out == Threw {
          return;
        }
      }
      out := RunNotify(k, EventAppended(id));
    }

    method PoolConnect(pool: Pool) returns (got: Option<ClientId>)
      modifies this`tape, this`clients
      ensures (View(), got) == Checkout(old(View()), pool)
    {
      var c := Draw();
      if c.fails {
        return None;
      }
      var k := c.reuse;
      if k < |clients| && !clients[k].checkedOut && !clients[k].dead && clients[k].pool == pool {
        clients := clients[k := clients[k].(checkedOut := true, checkouts := clients[k].checkouts + 1)];
        return Some(k);
      }
      got := Some(|clients|);
      clients := clients + [Client(pool, NoTx, true, false, 1, 0, 0)];
    }

    method PoolRelease(k: ClientId)
      requires k < |clients|
      modifies this`clients
      ensures View() == Release(old(View()), k)
    {
      clients := clients[k := clients[k].(checkedOut := false, releases := clients[k].releases + 1)];
    }

    method RunBegin(k: ClientId) returns (out: Outcome)
      requires k < |clients|
      modifies this`tape, this`clients
      ensures (View(), out) == Begin(old(View()), k)
    {
      var c := Draw();
      if c.fails {
        return Threw;
      }
      clients := clients[k := clients[k].(tx := Open(None, false, [], []))];
      out := Done;
    }

    method RunSetLocal(k: ClientId, org: Option<Org>) returns (out: Outcome)
      requires k < |clients|
      modifies this`tape, this`clients
      ensures (View(), out) == SetLocal(old(View()), k, org)
    {
      if org.None? {
        return Done;
      }
      out := RunQuery(k);
      if out == Done && clients[k].tx.Open? {
        clients := clients[k := clients[k].(tx := clients[k].tx.(org := org))];
      }
    }

    method RunCommit(k: ClientId) returns (out: Outcome)
      requires k < |clients|
      modifies this`tape, this`clients, this`rows, this`delivered
      ensures (View(), out) == Commit(old(View()), k)
    {
      var tx := clients[k].tx;
      var c := Draw();
      if c.fails {
        clients := clients[k := clients[k].(tx := Abort(tx))];
        return Threw;
      }
      clients := clients[k := clients[k].(tx := NoTx)];
      if tx.Open? && !tx.aborted {
        rows := rows + tx.rows;
        delivered := delivered + Collapse(tx.notifies);
      }
      out := Done;
    }

    method RunRollback(k: ClientId)
      requires k < |clients|
      modifies this`tape, this`clients
      ensures View() == Rollback(old(View()), k)
    {
      var c := Draw();
      if c.fails {
        clients := clients[k := clients[k].(dead := true, tx := NoTx)];
      } else {
        clients := clients[k := clients[k].(tx := NoTx)];
      }
    }

    /** pool.connect(), BEGIN and SET LOCAL; a failure of the last two rolls back and releases. */
    method OpenScope(pool: Pool, org: Option<Org>) returns (got: Option<ClientId>)
      modifies this`tape, this`clients
      ensures (View(), got) == Enter(old(View()), pool, org)
      ensures old(Valid()) ==>
                && Valid()
                && (got.None? ==> Balanced(old(View()), None, View()))
                && (got.Some? ==> AmbientServed(View(), Some(Ambient(got.value, pool, org)))
                                  && Gained(old(View()), got.value, View()))
    {
      if Valid() {
        EnterKeeps(View(), pool, org);
        EnterTells(View(), pool, org);
      }
      got := PoolConnect(pool);
      if got.None? {
        return;
      }
      var k := got.value;
      var out := RunBegin(k);
      if out == Done {
        out := RunSetLocal(k, org);
      }
      if out == Threw {
        RunRollback(k);
        PoolRelease(k);
        got := None;
      }
    }

    /** COMMIT after work that returned, ROLLBACK after any throw, and release in every case. */
    method CloseScope(k: ClientId, worked: Outcome) returns (out: Outcome)
      requires k < |clients|
      modifies this`tape, this`clients, this`rows, this`delivered
      ensures (View(), out) == Finish(old(View()), k, worked)
      ensures old(Valid() && clients[k].checkedOut) ==>
                && Valid() && !clients[k].checkedOut
                && forall j :: 0 <= j < |clients| && j != k ==> clients[j] == old(clients[j])
    {
      if Valid() && clients[k].checkedOut {
        FinishKeeps(View(), k, worked);
        FinishTells(View(), k, worked);
      }
      out := worked;
      if out == Done {
        out := RunCommit(k);
      }
      if out == Threw {
        RunRollback(k);
      }
      PoolRelease(k);
    }

    /** What any work keeps: the books, the wakes, and every connection in use by an enclosing scope. */
    lemma WorkKeeps(w: World, amb: Option<Ambient>, depth: nat, work: Work)
      requires AllTidy(w) && Told(w) && AmbientServed(w, amb)
      ensures var w' := Exec(w, amb, depth, work).0;
              AllTidy(w') && Told(w') && AmbientServed(w', amb) && Balanced(w, amb, w')
    {
      ExecKeepsDiscipline(w, amb, depth, work, Held(w.clients) - depth);
      ExecTells(w, amb, depth, work);
    }

    lemma SelectKeeps(w: World, a: Ambient, depth: nat)
      requires AllTidy(w) && Told(w) && AmbientServed(w, Some(a))
      ensures var w' := Query(Look(w, a, depth), a.client).0;
              AllTidy(w') && Told(w') && AmbientServed(w', Some(a))
    {
      SelectServes(w, a, depth);
      SelectTells(w, a, depth);
    }

    /** Opens, works and closes; every connection in use meanwhile, `amb` among them, is left as it was. */
    method RunOpened(ghost amb: Option<Ambient>, pool: Pool, org: Option<Org>, depth: nat, body: Work)
      returns (out: Outcome)
      requires Valid() && AmbientServed(View(), amb)
      modifies this
      ensures Valid() && AmbientServed(View(), amb) && Balanced(old(View()), None, View())
      ensures (View(), out) == ExecOpened(old(View()), pool, org, depth, body)
      decreases body, 2
    {
      OpenedKeepsDiscipline(View(), amb, pool, org, depth, body, Held(clients) - depth);
      var got := OpenScope(pool, org);
      if got.None? {
        return Threw;
      }
      out := RunWork(Some(Ambient(got.value, pool, org)), depth + 1, body);
      out := CloseScope(got.value, out);
    }

    /** Joins, rejects or opens; every connection in use by an enclosing scope is served as before. */
    method RunWithOrgScope(amb: Option<Ambient>, depth: nat, pool: Pool, org: Org, body: Work) returns (out: Outcome)
      requires Valid() && AmbientServed(View(), amb)
      modifies this
      ensures Valid() && AmbientServed(View(), amb) && Balanced(old(View()), amb, View())
      ensures (View(), out) == Exec(old(View()), amb, depth, InOrg(pool, org, body))
      decreases body, 3
    {
      if !SafeId(org) {
        out := Threw;
      } else if amb.Some? && amb.value.org.Some? && amb.value.pool == pool {
        if amb.value.org != Some(org) {
          out := Threw;
        } else {
          out := RunWork(amb, depth, body);
        }
      } else {
        out := RunOpened(amb, pool, Some(org), depth, body);
      }
    }

    method RunWithSystemScope(amb: Option<Ambient>, depth: nat, pool: Pool, body: Work) returns (out: Outcome)
      requires Valid() && AmbientServed(View(), amb)
      modifies this
      ensures Valid() && AmbientServed(View(), amb) && Balanced(old(View()), amb, View())
      ensures (View(), out) == Exec(old(View()), amb, depth, InSystem(pool, body))
      decreases body, 3
    {
      var (effective, vars') := ScopePool(vars, env, pool);
      vars := vars';
      if effective.None? {
        out := Threw;
      } else {
        out := RunOpened(amb, effective.value, None, depth, body);
      }
    }

    method RunStatement(amb: Option<Ambient>, depth: nat, work: Work) returns (out: Outcome)
      requires (work.Insert? || work.Append?) && (amb.Some? ==> amb.value.client < |clients|)
      modifies this
      ensures (View(), out) == Exec(old(View()), amb, depth, work)
    {
      if amb.None? {
        return Threw;
      }
      seen := Look(View(), amb.value, depth).seen;
      match work
      case Insert(tag, org) =>
        out := RunInsert(amb.value.client, Other(tag, org));
      case Append(input) =>
        out := AppendAllocatorEvent(amb.value.client, input);
    }

    /** A SELECT, and the work its result chooses. */
    method RunBranch(a: Ambient, depth: nat, test: seq<Row> -> bool, yes: Work, no: Work) returns (out: Outcome)
      requires Valid() && AmbientServed(View(), Some(a))
      modifies this
      ensures (View(), out) == Exec(old(View()), Some(a), depth, Select(test, yes, no))
      decreases Select(test, yes, no), 0
    {
      SelectKeeps(View(), a, depth);
      seen := Look(View(), a, depth).seen;
      var found;
      out, found := RunSelect(a.client);
      if out == Done {
        if test(found) {
          out := RunWork(Some(a), depth, yes);
        } else {
          out := RunWork(Some(a), depth, no);
        }
      }
    }

    method RunWork(amb: Option<Ambient>, depth: nat, work: Work) returns (out: Outcome)
      requires Valid() && AmbientServed(View(), amb)
      modifies this
      ensures Valid() && AmbientServed(View(), amb) && Balanced(old(View()), amb, View())
      ensures (View(), out) == Exec(old(View()), amb, depth, work)
      decreases work, 1
    {
      WorkKeeps(View(), amb, depth, work);
      match work
      case Skip =>
        out := Done;
      case Throw =>
        out := Threw;
      case Insert(_, _) =>
        out := RunStatement(amb, depth, work);
      case Append(_) =>
        out := RunStatement(amb, depth, work);
      case Select(test, yes, no) =>
        if amb.None? {
          out := Threw;
        } else {
          out := RunBranch(amb.value, depth, test, yes, no);
        }
      case Seq(first, then_) =>
        out := RunWork(amb, depth, first);
        if out == Done {
          out := RunWork(amb, depth, then_);
        }
      case Catch(body, handler) =>
        out := RunWork(amb, depth, body);
        if out == Threw {
          out := RunWork(amb, depth, handler);
        }
      case InOrg(pool, org, body) =>
        out := RunWithOrgScope(amb, depth, pool, org, body);
      case InSystem(pool, body) =>
        out := RunWithSystemScope(amb, depth, pool, body);
    }
  }
}
