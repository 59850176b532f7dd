/** What every step of every task keeps, however the tasks interleave. */
module OrgScopeTaskInvariants {
  import opened Base
  import opened Text
  import opened SystemPool
  import opened OrgScope
  import opened OrgScopeDiscipline
  import opened OrgScopeWakes
  import opened OrgScopeTasks

  // ---- the stack ----

  lemma {:induction false} StoreKeeps(stack: seq<Frame>, rows: seq<Row>)
    ensures ScopeClients(Store(stack, rows)) == ScopeClients(stack)
    ensures AmbientOf(Store(stack, rows)) == AmbientOf(stack) && DepthOf(Store(stack, rows)) == DepthOf(stack)
  {
    if stack != [] {
      StoreKeeps(stack[1..], rows);
      assert Store(stack, rows)[1..] == if stack[0].Scope? then stack[1..] else Store(stack[1..], rows);
    }
  }

  lemma {:induction false} StoreNothing(stack: seq<Frame>)
    ensures Store(stack, []) == stack
  {
    if stack != [] {
      StoreNothing(stack[1..]);
      if stack[0].Scope? {
        assert stack[0].stored + [] == stack[0].stored;
      }
      assert [stack[0]] + stack[1..] == stack;
    }
  }

  lemma {:induction false} ScopesServedApart(w: World, w': World, stack: seq<Frame>)
    requires ScopesServed(w, stack)
    requires forall k :: k in ScopeClients(stack) ==>
        k < |w.clients| && k < |w'.clients| && w'.clients[k] == w.clients[k]
    ensures ScopesServed(w', stack)
  {
    if stack != [] {
      forall k | k in ScopeClients(stack[1..]) ensures k in ScopeClients(stack) {}
      ScopesServedApart(w, w', stack[1..]);
    }
  }

  lemma {:induction false} AmbientIsServed(w: World, stack: seq<Frame>)
    requires ScopesServed(w, stack)
    ensures AmbientServed(w, AmbientOf(stack))
  {
    if stack != [] && !stack[0].Scope? {
      AmbientIsServed(w, stack[1..]);
    }
  }

  lemma {:induction false} AllScopesServed(w: World, stack: seq<Frame>, k: ClientId)
    requires ScopesServed(w, stack) && k in ScopeClients(stack)
    ensures k < |w.clients| && w.clients[k].checkedOut && w.clients[k].tx.Open?
  {
    if !(stack[0].Scope? && stack[0].ambient.client == k) {
      AllScopesServed(w, stack[1..], k);
    }
  }

  /** A statement on the ambient connection, which stored these rows, keeps all scopes of the task served. */
  lemma {:induction false} StatementServes(w: World, w': World, stack: seq<Frame>, rows: seq<Row>)
    requires ScopesServed(w, stack) && NoDuplicates(ScopeClients(stack)) && AmbientOf(stack).Some?
    requires OnlyTx(w, AmbientOf(stack).value.client, w')
    requires var k := AmbientOf(stack).value.client;
             w.clients[k].tx.Open? && w'.clients[k].tx.rows == w.clients[k].tx.rows + rows
    ensures ScopesServed(w', Store(stack, rows))
  {
    var below := ScopeClients(stack[1..]);
    if stack[0].Scope? {
      assert ScopeClients(stack)[0] == stack[0].ambient.client && ScopeClients(stack)[1..] == below;
      forall k | k in below
        ensures k < |w.clients| && w'.clients[k] == w.clients[k]
      {
        AllScopesServed(w, stack[1..], k);
        var j :| 0 <= j < |below| && below[j] == k;
        assert ScopeClients(stack)[j + 1] == k;
      }
      ScopesServedApart(w, w', stack[1..]);
      assert Store(stack, rows)[1..] == stack[1..];
    } else {
      assert ScopeClients(stack) == below;
      StatementServes(w, w', stack[1..], rows);
      assert Store(stack, rows)[1..] == Store(stack[1..], rows);
    }
  }

  // ---- one step of one task ----

  /** What a task may rely on when its turn comes. */
  ghost predicate Ready(w: World, t: Task) {
    && AllTidy(w) && Woken(w) && TaskServed(w, t)
    && forall k :: 0 <= k < |w.clients| && k in Clients(t) ==> MidAppend(t, k) || TxTold(w.clients[k].tx, w.nextId)
  }

  /** What its step leaves: its own connections served, all others in use untouched, none lost and no wake forgotten. */
  ghost predicate Kept(w: World, t: Task, w': World, t': Task) {
    && AllTidy(w') && Woken(w') && TaskServed(w', t')
    && |w.clients| <= |w'.clients| && w.nextId <= w'.nextId
    && (forall k :: 0 <= k < |w.clients| && w.clients[k].checkedOut && k !in Clients(t) ==>
         w'.clients[k] == w.clients[k])
    && (forall k :: k in Clients(t') ==> k in Clients(t) || k >= |w.clients| || !w.clients[k].checkedOut)
    && (forall k :: 0 <= k < |w'.clients| && w'.clients[k].checkedOut ==>
         k in Clients(t') || (k < |w.clients| && w.clients[k].checkedOut && k !in Clients(t)))
    && (forall k :: 0 <= k < |w'.clients| ==>
         || MidAppend(t', k) || TxTold(w'.clients[k].tx, w'.nextId)
         || (k < |w.clients| && w'.clients[k].tx == w.clients[k].tx && k !in Clients(t)))
  }

  /** A step on the task's own connections. */
  lemma OwnStepKept(w: World, t: Task, w': World, t': Task)
    requires Ready(w, t) && |w'.clients| == |w.clients| && w.nextId <= w'.nextId
    requires AllTidy(w') && Woken(w') && TaskServed(w', t')
    requires forall k :: k in Clients(t') ==> k in Clients(t)
    requires forall k :: 0 <= k < |w.clients| && k !in Clients(t) ==> w'.clients[k] == w.clients[k]
    requires forall k :: 0 <= k < |w.clients| && k in Clients(t) ==>
        && (w'.clients[k].checkedOut ==> k in Clients(t'))
        && (MidAppend(t', k) || TxTold(w'.clients[k].tx, w'.nextId))
    ensures Kept(w, t, w', t')
  {
  }

  /** A step that only moves the task's control. */
  lemma ControlStepKept(w: World, t: Task, w': World, t': Task)
    requires Ready(w, t) && w' == w.(vars := w'.vars, seen := w'.seen)
    requires Clients(t') == Clients(t) && TaskServed(w, t') && !Appending(t.control)
    requires !Appending(t'.control)
    ensures Kept(w, t, w', t')
  {
    ScopesServedApart(w, w', t'.stack);
    OwnStepKept(w, t, w', t');
  }

  /** A statement of the task, on the connection of its innermost scope. */
  lemma StatementKept(w: World, t: Task, w': World, c: Control, rows: seq<Row>)
    requires Ready(w, t) && AmbientOf(t.stack).Some? && !OnOwn(t.control) && !OnOwn(c)
    requires OnlyTx(w.(seen := w'.seen), AmbientOf(t.stack).value.client, w') && w.nextId <= w'.nextId
    requires var k := AmbientOf(t.stack).value.client;
             && w.clients[k].tx.Open? && w'.clients[k].tx.rows == w.clients[k].tx.rows + rows
             && if Appending(c) then Owes(w'.clients[k].tx, c, w'.nextId)
                else TxTold(w'.clients[k].tx, w'.nextId)
    ensures Kept(w, t, w', Task(c, Store(t.stack, rows)))
  {
    var t' := Task(c, Store(t.stack, rows));
    var a := AmbientOf(t.stack).value;
    StoreKeeps(t.stack, rows);
    AmbientIsServed(w, t.stack);
    AmbientIsAScope(t.stack);
    StatementKeeps(w.(seen := w'.seen), a, w');
    assert Clients(t) == ScopeClients(t.stack) == Clients(t');
    ScopesServedApart(w, w.(seen := w'.seen), t.stack);
    StatementServes(w.(seen := w'.seen), w', t.stack, rows);
    forall k | 0 <= k < |w.clients| && k in Clients(t)
      ensures MidAppend(t', k) || TxTold(w'.clients[k].tx, w'.nextId)
    {
      if k != a.client {
        TxToldLater(w.clients[k].tx, w.nextId, w'.nextId);
      }
    }
    OwnStepKept(w, t, w', t');
  }

  /** One that stored nothing. */
  lemma RowlessKept(w: World, t: Task, w': World, c: Control)
    requires Ready(w, t) && AmbientOf(t.stack).Some? && !OnOwn(t.control) && !OnOwn(c)
    requires OnlyTx(w.(seen := w'.seen), AmbientOf(t.stack).value.client, w') && w.nextId <= w'.nextId
    requires var k := AmbientOf(t.stack).value.client;
             && w.clients[k].tx.Open? && w'.clients[k].tx.rows == w.clients[k].tx.rows
             && if Appending(c) then Owes(w'.clients[k].tx, c, w'.nextId)
                else TxTold(w'.clients[k].tx, w'.nextId)
    ensures Kept(w, t, w', Task(c, t.stack))
  {
    var rows := w.clients[AmbientOf(t.stack).value.client].tx.rows;
    assert rows + [] == rows;
    StoreNothing(t.stack);
    StatementKept(w, t, w', c, []);
  }

  // ---- statements ----

  /** A transaction of the task that is not in the middle of an append. */
  lemma AmbientIsTold(w: World, t: Task)
    requires Ready(w, t) && AmbientOf(t.stack).Some? && !Appending(t.control)
    ensures var k := AmbientOf(t.stack).value.client;
            k < |w.clients| && w.clients[k].tx.Open? && TxTold(w.clients[k].tx, w.nextId)
  {
    AmbientIsServed(w, t.stack);
    AmbientIsAScope(t.stack);
    assert AmbientOf(t.stack).value.client in Clients(t);
  }

  /** A rejected query, or one that changed nothing. */
  lemma QueryTold(w: World, k: ClientId, tx: Tx)
    requires k < |w.clients| && w.clients[k].tx == tx && tx.Open? && TxTold(tx, w.nextId)
    ensures var (w', out) := Query(w, k);
            w'.nextId == w.nextId && w'.clients[k].tx.Open? && w'.clients[k].tx.rows == tx.rows
            && TxTold(w'.clients[k].tx, w'.nextId)
  {
  }

  lemma InsertStepKept(w: World, t: Task, tag: nat, org: Org)
    requires Ready(w, t) && t.control == Running(Insert(tag, org))
    ensures var (w', t') := TaskStep(w, t); Kept(w, t, w', t')
  {
    var (w', t') := TaskStep(w, t);
    if AmbientOf(t.stack).None? {
      ControlStepKept(w, t, w', t');
    } else {
      var k, row := AmbientOf(t.stack).value.client, Other(tag, org);
      AmbientIsTold(w, t);
      var w0 := Look(w, AmbientOf(t.stack).value, DepthOf(t.stack));
      var (w1, out) := InsertRow(w0, k, row);
      InsertOnlyTx(w0, k, row);
      InsertTold(w0, k, tag, org);
      StoreNothing(t.stack);
      StatementKept(w, t, w1, Returned(out), if out == Done then [row] else []);
    }
  }

  lemma SelectStepKept(w: World, t: Task, test: seq<Row> -> bool, yes: Work, no: Work)
    requires Ready(w, t) && t.control == Running(Select(test, yes, no))
    ensures var (w', t') := TaskStep(w, t); Kept(w, t, w', t')
  {
    var (w', t') := TaskStep(w, t);
    if AmbientOf(t.stack).None? {
      ControlStepKept(w, t, w', t');
    } else {
      var k := AmbientOf(t.stack).value.client;
      AmbientIsTold(w, t);
      var w0 := Look(w, AmbientOf(t.stack).value, DepthOf(t.stack));
      QueryOnlyTx(w0, k);
      QueryTold(w0, k, w0.clients[k].tx);
      StoreNothing(t.stack);
      StatementKept(w, t, w', t'.control, []);
    }
  }

  // ---- an append ----

  /** After the INSERT the wakes are owed. */
  lemma InsertEventOwes(w: World, k: ClientId, org: Org, run: Option<string>)
    requires k < |w.clients| && w.clients[k].tx.Open? && TxTold(w.clients[k].tx, w.nextId)
    ensures var (w', out) := InsertEvent(w, k, org, run);
            var tx, tx' := w.clients[k].tx, w'.clients[k].tx;
            && w'.nextId == w.nextId + 1 && tx'.Open?
            && tx'.rows == tx.rows + (if out == Done then [Event(w.nextId, org, run)] else [])
            && (if out == Done then Owes(tx', Waking(w.nextId, run), w'.nextId) else TxTold(tx', w'.nextId))
  {
    var (w', out) := InsertEvent(w, k, org, run);
    if out == Done {
      var tx, tx' := w.clients[k].tx, w'.clients[k].tx;
      assert Init(tx'.rows) == tx.rows && Last(tx'.rows) == Event(w.nextId, org, run);
      assert tx'.(rows := tx.rows) == tx;
    }
  }

  lemma AppendStepKept(w: World, t: Task, input: EventInput)
    requires Ready(w, t) && t.control == Running(Append(input))
    ensures var (w', t') := TaskStep(w, t); Kept(w, t, w', t')
  {
    if AmbientOf(t.stack).None? || Blank(input.org) || !input.payloadOk {
      var (w', t') := TaskStep(w, t);
      ControlStepKept(w, t, w', t');
    } else {
      var k, row := AmbientOf(t.stack).value.client, Event(w.nextId, input.org, input.run);
      AmbientIsTold(w, t);
      var w0 := Look(w, AmbientOf(t.stack).value, DepthOf(t.stack));
      var (w1, out) := InsertEvent(w0, k, input.org, input.run);
      InsertEventOnlyTx(w0, k, input.org, input.run);
      InsertEventOwes(w0, k, input.org, input.run);
      if out == Done {
        StatementKept(w, t, w1, Waking(w.nextId, input.run), [row]);
      } else {
        RowlessKept(w, t, w1, Returned(Threw));
      }
    }
  }

  /** The last notification settles the append. */
  lemma AnnouncedIsTold(tx: Tx, c: Control, nextId: EventId)
    requires c.Announcing? || (c.Waking? && c.run.None?)
    requires Owes(tx, c, nextId)
    ensures TxTold(tx.(notifies := tx.notifies + [EventAppended(c.id)]), nextId)
  {
    var row, before := Last(tx.rows), tx.(rows := Init(tx.rows));
    assert tx.rows == Init(tx.rows) + [row];
    if c.Waking? {
      WakeableAppended(before, row, c.id, []);
      assert tx.notifies + [] == tx.notifies;
      TxToldLater(tx.(notifies := tx.notifies + [EventAppended(c.id)]), c.id + 1, nextId);
    } else {
      var earlier := before.(notifies := Init(tx.notifies));
      assert tx.notifies == Init(tx.notifies) + [Last(tx.notifies)];
      WakeableAppended(earlier, row, c.id, [RunActivity(row.run.value)]);
      TxToldLater(tx.(notifies := tx.notifies + [EventAppended(c.id)]), c.id + 1, nextId);
    }
  }

  lemma NotifiedIsTold(w: World, k: ClientId, c: Control)
    requires (c.Announcing? || (c.Waking? && c.run.None?)) && k < |w.clients| && Owes(w.clients[k].tx, c, w.nextId)
    ensures var w' := SendNotify(w, k, EventAppended(c.id)).0;
            && w'.nextId == w.nextId && w'.clients[k].tx.Open? && w'.clients[k].tx.rows == w.clients[k].tx.rows
            && TxTold(w'.clients[k].tx, w'.nextId)
  {
    AnnouncedIsTold(w.clients[k].tx, c, w.nextId);
  }

  lemma AnnounceKept(w: World, t: Task)
    requires Ready(w, t) && (t.control.Announcing? || (t.control.Waking? && t.control.run.None?))
    ensures var (w', t') := TaskStep(w, t); Kept(w, t, w', t')
  {
    AmbientIsAScope(t.stack);
    AmbientIsServed(w, t.stack);
    var k := AmbientOf(t.stack).value.client;
    NotifyOnlyTx(w, k, EventAppended(t.control.id));
    NotifiedIsTold(w, k, t.control);
    var (w', out) := SendNotify(w, k, EventAppended(t.control.id));
    assert w.(seen := w'.seen) == w;
    RowlessKept(w, t, w', Returned(out));
  }

  /** An append whose run id is malformed ends here, its row stored and owed nothing. */
  lemma MalformedIsTold(tx: Tx, c: Control, nextId: EventId)
    requires c.Waking? && c.run.Some? && !SafeId(c.run.value) && Owes(tx, c, nextId)
    ensures TxTold(tx, nextId)
  {
    var row, before := Last(tx.rows), tx.(rows := Init(tx.rows));
    assert tx.rows == Init(tx.rows) + [row];
    AppendedTold(before, c.id, row.org, row.run);
    assert TxAppended(before, c.id, row.org, row.run) == tx;
    TxToldLater(tx, c.id + 1, nextId);
  }

  lemma RunWokenOwes(tx: Tx, c: Control, nextId: EventId)
    requires c.Waking? && c.run.Some? && SafeId(c.run.value) && Owes(tx, c, nextId)
    ensures Owes(tx.(notifies := tx.notifies + [RunActivity(c.run.value)]), Announcing(c.id), nextId)
  {
    assert Init(tx.notifies + [RunActivity(c.run.value)]) == tx.notifies;
  }

  lemma RunNotifiedOwes(w: World, k: ClientId, c: Control)
    requires c.Waking? && c.run.Some? && SafeId(c.run.value) && k < |w.clients| && Owes(w.clients[k].tx, c, w.nextId)
    ensures var (w', woken) := SendNotify(w, k, RunActivity(c.run.value));
            && w'.nextId == w.nextId && w'.clients[k].tx.Open? && w'.clients[k].tx.rows == w.clients[k].tx.rows
            && if woken == Done then Owes(w'.clients[k].tx, Announcing(c.id), w'.nextId)
               else TxTold(w'.clients[k].tx, w'.nextId)
  {
    RunWokenOwes(w.clients[k].tx, c, w.nextId);
  }

  lemma WakeStepKept(w: World, t: Task)
    requires Ready(w, t) && t.control.Waking? && t.control.run.Some?
    ensures var (w', t') := TaskStep(w, t); Kept(w, t, w', t')
  {
    AmbientIsAScope(t.stack);
    AmbientIsServed(w, t.stack);
    var k, run := AmbientOf(t.stack).value.client, t.control.run.value;
    assert w.(seen := w.seen) == w;
    if SafeId(run) {
      NotifyOnlyTx(w, k, RunActivity(run));
      RunNotifiedOwes(w, k, t.control);
      var (w', woken) := SendNotify(w, k, RunActivity(run));
      RowlessKept(w, t, w', if woken == Done then Announcing(t.control.id) else Returned(Threw));
    } else {
      MalformedIsTold(w.clients[k].tx, t.control, w.nextId);
      RowlessKept(w, t, w, Returned(Threw));
    }
  }

  // ---- opening and closing a scope ----

  /** A step on the one connection that the task uses outside its scopes. */
  lemma ConnectionStepKept(w: World, t: Task, w': World, c: Control)
    requires Ready(w, t) && OnOwn(t.control) && (OnOwn(c) ==> c.k == t.control.k)
    requires !Appending(c) && AllTidy(w') && Woken(w')
    requires var k := t.control.k;
             && |w'.clients| == |w.clients| && w.nextId <= w'.nextId
             && (forall j :: 0 <= j < |w.clients| && j != k ==> w'.clients[j] == w.clients[j])
             && (w'.clients[k].checkedOut ==> OnOwn(c)) && TxTold(w'.clients[k].tx, w'.nextId)
    requires InRange(w', Task(c, t.stack)) && ControlServed(w', Task(c, t.stack))
    ensures Kept(w, t, w', Task(c, t.stack))
  {
    var k, t' := t.control.k, Task(c, t.stack);
    FirstIsNoOther(k, ScopeClients(t.stack));
    assert Clients(t) == [k] + ScopeClients(t.stack);
    assert Clients(t') == if OnOwn(c) then Clients(t) else ScopeClients(t.stack);
    ScopesServedApart(w, w', t.stack);
    forall j | 0 <= j < |w.clients| && j in Clients(t)
      ensures (w'.clients[j].checkedOut ==> j in Clients(t')) && TxTold(w'.clients[j].tx, w'.nextId)
    {
      if j != k {
        TxToldLater(w.clients[j].tx, w.nextId, w'.nextId);
      }
    }
    OwnStepKept(w, t, w', t');
  }

  lemma FirstIsNoOther(first: ClientId, rest: seq<ClientId>)
    requires NoDuplicates([first] + rest)
    ensures first !in rest && NoDuplicates(rest)
  {
    var all := [first] + rest;
    forall i | 0 <= i < |rest| ensures rest[i] != first { assert all[0] != all[i + 1]; }
    forall i, j | 0 <= i < j < |rest| ensures rest[i] != rest[j] { assert all[i + 1] != all[j + 1]; }
  }

  lemma BeginStepKept(w: World, t: Task)
    requires Ready(w, t) && t.control.Beginning?
    ensures var (w', t') := TaskStep(w, t); Kept(w, t, w', t')
  {
    var (w', t') := TaskStep(w, t);
    ConnectionStepKept(w, t, w', t'.control);
  }

  lemma RollbackStepKept(w: World, t: Task)
    requires Ready(w, t) && t.control.RollingBack?
    ensures var (w', t') := TaskStep(w, t); Kept(w, t, w', t')
  {
    var (w', t') := TaskStep(w, t);
    ConnectionStepKept(w, t, w', t'.control);
  }

  lemma ReleaseStepKept(w: World, t: Task)
    requires Ready(w, t) && t.control.Releasing?
    ensures var (w', t') := TaskStep(w, t); Kept(w, t, w', t')
  {
    var (w', t') := TaskStep(w, t);
    ConnectionStepKept(w, t, w', t'.control);
  }

  /** SET LOCAL makes the connection that of a new scope, or sends it back. */
  lemma SetLocalStepKept(w: World, t: Task)
    requires Ready(w, t) && t.control.Setting?
    ensures var (w', t') := TaskStep(w, t); Kept(w, t, w', t')
  {
    var (w', t') := TaskStep(w, t);
    SetLocalKeeps(w, t.control.k, t.control.org);
    if t'.control.RollingBack? {
      ConnectionStepKept(w, t, w', t'.control);
    } else {
      ScopeBegunKept(w, t, w', t');
    }
  }

  lemma ScopeBegunKept(w: World, t: Task, w': World, t': Task)
    requires Ready(w, t) && t.control.Setting? && t.control.k < |w.clients|
    requires var k, c := t.control.k, t.control;
             && |w'.clients| == |w.clients| && t'.control == Running(c.body)
             && t'.stack == [Scope(Ambient(k, c.pool, c.org), [], w'.clients[k].refused)] + t.stack
             && w'.clients[k] == w.clients[k].(tx := Open(c.org, false, [], []), refused := w'.clients[k].refused)
             && w'.rows == w.rows && w'.delivered == w.delivered && w'.nextId == w.nextId
             && forall j :: 0 <= j < |w.clients| && j != k ==> w'.clients[j] == w.clients[j]
    ensures Kept(w, t, w', t')
  {
    ScopeBegun(w, t, w', t');
    assert t.control.k in Clients(t);
    assert Woken(w') && AllTidy(w');
    OwnStepKept(w, t, w', t');
  }

  lemma ScopeBegun(w: World, t: Task, w': World, t': Task)
    requires TaskServed(w, t) && t.control.Setting?
    requires var k, c := t.control.k, t.control;
             && |w'.clients| == |w.clients| && t'.control == Running(c.body)
             && t'.stack == [Scope(Ambient(k, c.pool, c.org), [], w'.clients[k].refused)] + t.stack
             && Fresh(w'.clients[k], c.pool) && w'.clients[k].tx == Open(c.org, false, [], [])
             && forall j :: 0 <= j < |w.clients| && j != k ==> w'.clients[j] == w.clients[j]
    ensures TaskServed(w', t') && Clients(t') == Clients(t)
  {
    FirstIsNoOther(t.control.k, ScopeClients(t.stack));
    ScopesServedApart(w, w', t.stack);
    assert t'.stack[1..] == t.stack;
    assert Clients(t') == Clients(t);
  }

  lemma CloseKeepsTidy(w: World, k: ClientId, w': World)
    requires AllTidy(w) && Woken(w) && k < |w.clients| && w.clients[k].checkedOut && TxTold(w.clients[k].tx, w.nextId)
    requires w' == Rollback(w, k) || w' == Commit(w, k).0
    ensures AllTidy(w') && Woken(w') && |w'.clients| == |w.clients| && w'.nextId == w.nextId
    ensures w'.clients[k].checkedOut && TxTold(w'.clients[k].tx, w'.nextId)
    ensures forall j :: 0 <= j < |w.clients| && j != k ==> w'.clients[j] == w.clients[j]
  {
    CommitWakes(w, k);
  }

  lemma ClosedClients(t: Task, c: Control)
    requires t.control.Returned? && t.stack != [] && t.stack[0].Scope?
    requires (c.RollingBack? || c.Releasing?) && c.k == t.stack[0].ambient.client
    ensures Clients(Task(c, t.stack[1..])) == Clients(t) == [c.k] + ScopeClients(t.stack[1..])
  {
  }

  lemma CloseServed(w: World, t: Task, w': World, c: Control)
    requires NoDuplicates(Clients(t)) && ScopesServed(w, t.stack)
    requires t.control.Returned? && t.stack != [] && t.stack[0].Scope?
    requires (c.RollingBack? || c.Releasing?) && c.k == t.stack[0].ambient.client
    requires && |w'.clients| == |w.clients| && c.k < |w.clients| && w'.clients[c.k].checkedOut
             && (c.Releasing? ==> w'.clients[c.k].tx.NoTx?)
             && forall j :: 0 <= j < |w.clients| && j != c.k ==> w'.clients[j] == w.clients[j]
    ensures TaskServed(w', Task(c, t.stack[1..]))
  {
    var below := t.stack[1..];
    ClosedClients(t, c);
    FirstIsNoOther(c.k, ScopeClients(below));
    forall j | j in ScopeClients(below)
      ensures j < |w.clients| && w'.clients[j] == w.clients[j]
    {
      AllScopesServed(w, below, j);
    }
    ScopesServedApart(w, w', below);
  }

  /** COMMIT or ROLLBACK of the innermost scope, whose connection is then no scope's. */
  lemma CloseKept(w: World, t: Task, w': World, c: Control)
    requires Ready(w, t) && t.control.Returned? && t.stack != [] && t.stack[0].Scope?
    requires var k := t.stack[0].ambient.client;
             && k < |w.clients| && (w' == Rollback(w, k) || w' == Commit(w, k).0)
             && (c == RollingBack(k) || (c.Releasing? && c.k == k && w'.clients[k].tx.NoTx?))
    ensures Kept(w, t, w', Task(c, t.stack[1..]))
  {
    var k := t.stack[0].ambient.client;
    assert k == ScopeClients(t.stack)[0] && k in Clients(t);
    CloseKeepsTidy(w, k, w');
    CloseServed(w, t, w', c);
    ClosedClients(t, c);
    OwnStepKept(w, t, w', Task(c, t.stack[1..]));
  }

  lemma CloseStepKept(w: World, t: Task)
    requires Ready(w, t) && t.control.Returned? && t.stack != [] && t.stack[0].Scope?
    ensures var (w', t') := TaskStep(w, t); Kept(w, t, w', t')
  {
    var (w', t') := TaskStep(w, t);
    CloseKept(w, t, w', t'.control);
  }

  /** A connection that no task had joins the task's. */
  lemma GainedKept(w: World, t: Task, w0: World, k: ClientId, w': World, c: Control)
    requires Ready(w, t) && !OnOwn(t.control) && !Appending(t.control)
    requires w0 == w.(vars := w0.vars) && Gained(w0, k, w')
    requires c.Beginning? && c.k == k && Fresh(w'.clients[k], c.pool) && w'.clients[k].tx.NoTx?
    ensures Kept(w, t, w', Task(c, t.stack))
  {
    var t', scopes := Task(c, t.stack), ScopeClients(t.stack);
    assert Clients(t) == scopes && Clients(t') == [k] + scopes;
    forall j | j in scopes
      ensures j < |w.clients| && w.clients[j].checkedOut && j != k && w'.clients[j] == w.clients[j]
    {
      AllScopesServed(w, t.stack, j);
    }
    ScopesServedApart(w, w', t.stack);
    NewIsNoDuplicate(k, scopes);
    assert TaskServed(w', t');
    assert Woken(w');
  }

  lemma NewIsNoDuplicate(first: ClientId, rest: seq<ClientId>)
    requires NoDuplicates(rest) && first !in rest
    ensures NoDuplicates([first] + rest)
  {
    var all := [first] + rest;
    forall i, j | 0 <= i < j < |all| ensures all[i] != all[j] {
      assert all[j] == rest[j - 1] && (i > 0 ==> all[i] == rest[i - 1]);
    }
  }

  /** A checkout takes a connection that no task has. */
  lemma CheckoutKept(w: World, t: Task, w0: World, pool: Pool, org: Option<Org>, body: Work)
    requires Ready(w, t) && !OnOwn(t.control) && !Appending(t.control)
    requires w0 == w.(vars := w0.vars)
    ensures var (w', t') := Opening(w0, t.stack, pool, org, body); Kept(w, t, w', t')
  {
    var (w', t') := Opening(w0, t.stack, pool, org, body);
    CheckoutGains(w0, pool);
    var (w1, got) := Checkout(w0, pool);
    if got.Some? {
      GainedKept(w, t, w0, got.value, w', t'.control);
    } else {
      ScopesServedApart(w, w', t.stack);
      assert Clients(t) == Clients(t') == ScopeClients(t.stack);
      OwnStepKept(w, t, w', t');
    }
  }

  /** Whatever a task does at its turn. */
  lemma TaskStepKept(w: World, t: Task)
    requires Ready(w, t)
    ensures var (w', t') := TaskStep(w, t); Kept(w, t, w', t')
  {
    var (w', t') := TaskStep(w, t);
    match t.control
    case Waking(_, run) => if run.None? { AnnounceKept(w, t); } else { WakeStepKept(w, t); }
    case Announcing(_) => AnnounceKept(w, t);
    case Beginning(_, _, _, _) => BeginStepKept(w, t);
    case Setting(_, _, _, _) => SetLocalStepKept(w, t);
    case RollingBack(_) => RollbackStepKept(w, t);
    case Releasing(_, _) => ReleaseStepKept(w, t);
    case Returned(_) =>
      if t.stack != [] && t.stack[0].Scope? {
        CloseStepKept(w, t);
      } else {
        assert t.stack != [] ==> ScopeClients(t.stack) == ScopeClients(t.stack[1..]);
        ControlStepKept(w, t, w', t');
      }
    case Running(work) => StartKept(w, t, work);
  }

  lemma InOrgStepKept(w: World, t: Task, pool: Pool, org: Org, body: Work)
    requires Ready(w, t) && t.control == Running(InOrg(pool, org, body))
    ensures var (w', t') := TaskStep(w, t); Kept(w, t, w', t')
  {
    if SafeId(org) && !Joins(AmbientOf(t.stack), pool) {
      CheckoutKept(w, t, w, pool, Some(org), body);
    } else {
      var (w', t') := TaskStep(w, t);
      ControlStepKept(w, t, w', t');
    }
  }

  lemma InSystemStepKept(w: World, t: Task, pool: Pool, body: Work)
    requires Ready(w, t) && t.control == Running(InSystem(pool, body))
    ensures var (w', t') := TaskStep(w, t); Kept(w, t, w', t')
  {
    var (effective, vars) := ScopePool(w.vars, w.env, pool);
    if effective.Some? {
      CheckoutKept(w, t, w.(vars := vars), effective.value, None, body);
    } else {
      var (w', t') := TaskStep(w, t);
      ControlStepKept(w, t, w', t');
    }
  }

  lemma PureStepKept(w: World, t: Task)
    requires Ready(w, t) && t.control.Running?
    requires t.control.work.Skip? || t.control.work.Throw? || t.control.work.Seq? || t.control.work.Catch?
    ensures var (w', t') := TaskStep(w, t); Kept(w, t, w', t')
  {
    var (w', t') := TaskStep(w, t);
    assert t'.stack == t.stack || t'.stack[1..] == t.stack;
    ControlStepKept(w, t, w', t');
  }

  lemma StartKept(w: World, t: Task, work: Work)
    requires Ready(w, t) && t.control == Running(work)
    ensures var (w', t') := TaskStep(w, t); Kept(w, t, w', t')
  {
    match work
    case Insert(tag, org) => InsertStepKept(w, t, tag, org);
    case Append(input) => AppendStepKept(w, t, input);
    case Select(test, yes, no) => SelectStepKept(w, t, test, yes, no);
    case InOrg(pool, org, body) => InOrgStepKept(w, t, pool, org, body);
    case InSystem(pool, body) => InSystemStepKept(w, t, pool, body);
    case _ => PureStepKept(w, t);
  }
}
