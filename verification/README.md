# Verified model of tanren's wake channel, org scopes and tenancy

A Dafny model of the stateful and protocol-like parts of tanren, with proofs about every input,
every run or every reachable state. Verify it with `dafny verify dfyconfig.toml`.

| files | what they model |
|---|---|
| `NotifyListener*.dfy`, `PgNotifyListener.dfy` | the LISTEN/NOTIFY listener: a step machine of everything that can happen between two `await`s, its invariants and theorems, and the class whose methods do exactly those steps |
| `SystemPool.dfy` | the four module variables behind the system pool, as a function of the calls made so far |
| `OrgScope*.dfy`, `ScopedDatabase.dfy` | org and system scopes as an interpreter over pools, connections, transactions, the transaction-local org setting and pending notifications; the same thing written imperatively |
| `OrgScopeTask*.dfy` | any number of callers of those scopes at once, interleaved query by query |
| `WakeDelivery.dfy` | scopes and one run of the listener composed: from a committed row to a handler call |
| `Tenancy*.dfy` | org-scoped programs under the row policy: what their commands do to the table, and non-interference between orgs |
| `Lineage.dfy` | the composite foreign keys of projects, specs, runs, events and issue loops |
| `Watchdog.dfy` | the poll loop of the plane-split smoke run |
| `EnvFile.dfy`, `CliArgs.dfy`, `SqlText.dfy` | parsers and printers, over `Text.dfy` and `Base.dfy` |
| `MigrationLock.dfy` | concurrent `migrate()` calls around one advisory lock |

## How the protocols are modelled

**Listener.** A state holds the fields of the class, every connection ever checked out (with its FIFO
command queue and server-side listen set), every `connect()` in flight and every `subscribe` call with
a program counter. Steps are the stretches of code between two `await`s, plus the environment: the
pool answers or refuses, the server runs or refuses a command, a connection drops, its error event
arrives. The re-LISTEN loop walks the live handler map, so it carries the keys it has still to visit;
`subscribe` adds to that list, and deleting a channel removes from it. A loop whose re-LISTEN is refused
keeps in view the registered channels it left unheard, until a LISTEN for them is answered on its
connection. A fresh connection may carry any leftover listen set.

**Scopes.** Work is a tree of inserts, event appends, selects whose result chooses how the work goes on,
throws, catches, sequences, org scopes and system scopes. A tape of choices makes any query, checkout, COMMIT or ROLLBACK fail, and each
connection counts the queries of work that were rejected on it. About PostgreSQL and the
driver the model takes: commands of one connection run in order; NOTIFY is delivered at COMMIT, in
order, and identical notifications of one transaction collapse; SET LOCAL ends with its transaction; a
failed statement aborts its transaction; COMMIT of an aborted transaction rolls back and reports no
error; a failed COMMIT means not committed; a connection whose ROLLBACK fails is dead and not reissued.
The pool is unbounded and work awaits what it starts. Several callers are tasks that take turns, one
query, checkout or release each, in any order; a task has its own stack of scopes, as the async context
has, and shares the pools and the database with the others.

**Lock.** The advisory lock is per session and re-entrant; a lock or unlock call can fail before or
after its effect on the server; a session may die at any time, which frees its lock.

## What turned out not to hold as stated, and exactly when it holds

- A refused re-LISTEN ends the loop and leaves its connection in place. Whatever else is in progress, a
  live client whose loop is over listens to a channel with a finished subscribe if and only if the loop did
  not miss it (`AttendedIsHeardUnlessMissed`). A missed channel that no queued LISTEN and no call in progress
  will ask for stays unheard there in every run that starts no new subscribe for it
  (`UnheardUntilSubscribedAgain`). Once the LISTEN of a later subscribe is answered, it is listened to in
  every later state in which that client is live and the channel has a finished subscribe
  (`AnsweredSubscribeRecovers`). `RefusedRelistenLeavesChannelDeaf` is a run that gets there.
- A dropped connection is replaced at once when channels are registered (`ErrorEventReconnects`), but the
  reconnect is not always the last word. An open listener with registered channels has neither a client nor
  a connect in flight if and only if some `connect()` ended while there was no client and nobody has subscribed
  since (`DesertedExactly`). That is not only a refused checkout or re-LISTEN (`EndsWithoutClientKinds`): when
  the connection drops after the last re-LISTEN was answered and before the loop ends, the error event joins
  the `connect()` that is about to finish, and nothing was ever refused (`DropDuringLoopDeserts`).
- A handler that throws ends the dispatch of its notification: the handlers before it in the channel's Set
  have been called, those after it are not, and other notifications are not affected. A handler of a heard
  channel is called if and only if no handler before it in the Set throws (`PgListener.WokenExactly`,
  `DeliveryReachesExactlyItsHandlers`).
- Failure atomicity of `subscribe`: every live subscribe keeps its registration, in every state of a run
  before `close`, if and only if no step of the run ends a call whose channel and handler another live
  call shares (`RegistrationsLastExactlyWithoutEviction`). A caller that starts a subscribe only when its
  handler has no live one for the channel, and calls each unsubscribe once, is safe
  (`ExclusiveRunsAreUndisturbed`), so retrying one handler after each failure is.
  For a single failing subscribe in any reachable state, `CatchSparesOthersExactly` gives the guards of
  the catch block that decide whether it leaves the others alone. Two runs show both ways it does not:
  a subscribe whose handler was not registered when it started takes a later one of the same handler with
  it (`EarlierFailureEvictsALaterSubscribe`), and one whose Set has been replaced deletes the channel entry
  of another handler (`StaleFailureEvictsAnotherHandler`). The comment at db/src/notify.ts:161-166 calls a
  re-subscribe of a registered handler idempotent; the code is followed.
- `close()` leaves a client behind on some run exactly when a `connect()` waits for the pool at that
  moment (`CloseLeaksExactlyAPendingConnect`).
- Each commit wakes exactly for the rows it makes durable. Every durable event is announced exactly when no durable event row has a malformed run id
  (`DurableExactlyWhenWoken`); such a row comes only from an append that threw after its INSERT and was
  caught inside its transaction (`PropagatedAppendsAreAllWoken`, `SwallowedAppendIsSilent`).
- What the own statements of a scope stored becomes durable, all of it, if and only if the scope reports
  success and no query of its transaction was rejected, and none of it does otherwise, for org and system
  scopes at any depth and at every failure point (`OpenedScopeIsAllOrNothing`). So a scope whose own
  statements sit under no catch has committed whenever it reports success
  (`SuccessfulScopeCommitsUnlessAFailureIsCaught`), and a caught rejection loses the whole scope silently
  (`CaughtFailureLosesTheScope`).
- The rejection of a different org looks only at the innermost scope: a scope is rejected untouched if and
  only if the innermost scope is an org scope of the same pool under another org,
  or its own org id is malformed (`RejectedExactlyByTheInnermostScope`). Any scope in between that does not join the outer pool, a system
  scope or an org scope of another pool, hides the outer org (`ScopeInBetweenHidesTheOuterOrg`).
- The row policy isolates two tenants on a table if and only if the table's key contains the org: on a
  table keyed by the id alone, a row of another org that cannot be seen makes an INSERT fail
  (`Tenancy.IsolatesExactlyWhenKeyedByOrg`). `projects`, `specs` and `runs` are keyed by the id alone. One
  run on such a table leaves an org undisturbed if and only if at each of its inserts of an id that it does
  not hold itself, another org's row holds the id exactly if one did at the start
  (`Tenancy.IdAloneIsolatesUnlessDisturbed`).
- Of the seven foreign keys of `events` exactly six are needed in reachable databases; the one that names all four columns
  follows from the others (`Lineage.ExactlySixKeysAreNeeded`).
- The two argument parsers agree, on what the strict one accepts, if and only if there is no `--json`.
- Mutual exclusion of migrations holds while sessions live. In every reachable state a waiting call can
  enter beside one in the body if and only if the latter's session is dead and no third session has the
  lock (`AnotherEntersExactlyBesideADeadSession`); `DeadSessionAdmitsASecondMigrator` is such a run.
- A quoted channel name denotes the channel itself if and only if it is not empty, has no NUL and fits
  in 63 bytes (`QuotedIdentifierIsTheName`).

## Model

| member | source | states |
|---|---|---|
| `NotifyListenerInvariants.StepKeepsAccounts` | db/src/notify.ts:203-315 | every step of the listener, in any state that satisfies it, keeps the account of connections: one held exactly while `client` is set, each owned by the connect that obtained it, at most one connect in flight |
| `NotifyListenerRegistry.StepKeepsSound` | db/src/notify.ts:203-315 | every step keeps the registry well formed (no empty Set, every handler from a live subscribe) and pairs each queued LISTEN with exactly the one call or loop that awaits it |
| `NotifyListenerRefinement.StepKeepsRefines` | db/src/notify.ts:203-315 | every step keeps: each subscribe whose Set is registered is covered on the live client by what the FIFO queue will do, by the loop's remaining keys, or by its own pending LISTEN |
| `NotifyListenerRuns.ReachableStep` | db/src/notify.ts:203-315 | reachable states are closed under enabled steps and satisfy all the invariants |
| `NotifyListenerTheorems.ConnectionConservation` | db/src/notify.ts:237-306 | on every run checkouts minus releases is 1 if `client` is set and 0 otherwise, no connection is released twice, only the current client carries event handlers, and two connects are never in flight |
| `NotifyListenerTheorems.ListenerRefinement` | db/src/notify.ts:203-315 | on every run, each registered channel of a live client is listened to once its queue drains, or the loop owes it (or left it unheard when a re-LISTEN was refused, with no LISTEN for it answered since), or a subscribe has not sent its LISTEN |
| `NotifyListenerTheorems.QuietListenerHearsEverything` | db/src/notify.ts:203-315 | with nothing in flight and a loop that completed, the server-side listen set contains every registered channel |
| `NotifyListenerLoop.LoopFollowsTheRegistry` | db/src/notify.ts:289-292 | in every reachable state, whatever was subscribed, unsubscribed, caught or closed while a re-LISTEN loop runs: it has still to visit exactly the last channels of the registry in the order of their registration, and its live connection will listen to every other registered channel even if each LISTEN of a subscribe is refused |
| `NotifyListenerLoop.RelistensOnlyTheRegistered` | db/src/notify.ts:290-291 | a LISTEN of the loop is for a channel that is registered when it is sent |
| `NotifyListenerLoop.FinishedLoopVisitedAll` | db/src/notify.ts:289-292 | when the loop finishes on a live connection, that will listen to every registered channel without the help of any subscribe |
| `NotifyListenerReconnect.ErrorEventReconnects` | db/src/notify.ts:295-314 | in every good state of an open listener the error event of a connection clears the client, releases that connection, and leaves `connecting` naming a connect in flight if channels are registered; no connect is started if none is, or if one is in flight |
| `NotifyListenerReconnect.SubscribeConnects` | db/src/notify.ts:251-259 | a subscribe on an open listener without client leaves a connect in flight and waits for it |
| `NotifyListenerReconnect.DesertedExactly` | db/src/notify.ts:251-314 | on every run an open listener with registered channels has neither client nor connect in flight if and only if a connect ended while there was no client and no subscribe came after it |
| `NotifyListenerReconnect.EndsWithoutClientKinds` | db/src/notify.ts:261-293 | such an end is a refused checkout, a refused re-LISTEN, or the end of a loop, the last two only on a connection that was lost while the loop ran |
| `NotifyListenerReconnect.DropDuringLoopDeserts` | db/src/notify.ts:295-314 | a run in which nothing is refused and the listener still ends up without client or connect, its subscribe successful and no step of its own enabled |
| `NotifyListenerCalls.NoCallIsStuck` | db/src/notify.ts:203-234 | in every reachable state each subscribe call that has neither failed nor been unsubscribed has an enabled step that moves it on: its own, or one of the connect or the connection it waits for |
| `NotifyListenerCalls.SubscribeOutcome` | db/src/notify.ts:210-224 | on every run a subscribe has been rejected if and only if the checkout or the re-LISTEN of the connect it awaited, or its own LISTEN, was refused; and it has succeeded if and only if its LISTEN was answered or there was no client to send it to |
| `NotifyListenerCalls.LastUnsubscribeIsUnheard` | db/src/notify.ts:224-233 | an unsubscribe takes a registered channel away if and only if its handler was the last one, and then the client will not listen to it once its queue drains; any other unsubscribe sends nothing |
| `NotifyListenerCalls.CloseDropsEverything` | db/src/notify.ts:237-249 | close empties the registry, leaves every connection released once and without handlers, and leaves the calls and the connect in flight as they are |
| `NotifyListenerSubscribers.StepKeepsHeldExactly` | db/src/notify.ts:203-234 | where every live subscribe holds its registration, a step other than close keeps that if and only if it does not end a call whose channel and handler another live call shares |
| `NotifyListenerSubscribers.RegistrationsLastExactlyWithoutEviction` | db/src/notify.ts:194-234 | before close, every live subscribe holds its registration in every state of a run if and only if no step of the run ends a call that shares channel and handler with a live one |
| `NotifyListenerSubscribers.RegistryIsTheLiveSubscribes` | db/src/notify.ts:194-234 | on such runs the registry is exactly the started subscribes that neither failed nor were unsubscribed, with no empty channel entry, in every reachable state before close |
| `NotifyListenerSubscribers.ExclusiveRunsAreUndisturbed` | db/src/notify.ts:161-166 | a caller that subscribes a handler only while it has no live subscribe for the channel, and calls each closure once, causes no such step, however often it retries |
| `NotifyListenerSubscribers.DistinctRunsAreUndisturbed` | db/src/notify.ts:203-234 | neither do callers whose subscribes never share a handler |
| `NotifyListenerSubscribers.CatchSparesOthersExactly` | db/src/notify.ts:213-223 | in every reachable state a failing subscribe leaves every other live call its registration if and only if, while its Set is the channel's, no other registration rests on its handler, and, once its Set was replaced, that Set stays non-empty or nobody holds the channel |
| `NotifyListenerEvictions.EarlierFailureEvictsALaterSubscribe` | db/src/notify.ts:213-223 | a run in which a subscribe whose handler was unregistered at its start fails and takes the registration of a later, successful one |
| `NotifyListenerEvictions.StaleFailureEvictsAnotherHandler` | db/src/notify.ts:218-221 | a run in which a failing subscribe with a replaced, empty Set deletes the channel entry of a subscribe with another handler |
| `NotifyListenerTheorems.CloseLeaksExactlyAPendingConnect` | db/src/notify.ts:236-293 | after close some run installs a client if and only if a connect was waiting for the pool |
| `NotifyListenerTheorems.FinishedRun` | db/src/notify.ts:237-259 | a closed listener without client or pending connect never obtains a client again, over any run |
| `NotifyListenerRelisten.RefusedRelistenMissesExactly` | db/src/notify.ts:289-293 | when a re-LISTEN is refused, its connection is left without exactly the registered channels the loop had still to visit and the refused one, save those it listens to already |
| `NotifyListenerTheorems.AttendedIsHeardUnlessOwed` | db/src/notify.ts:203-315 | a live client listens to every channel with a finished, still registered subscribe, unless the loop has it still to visit or to be answered, or missed it; queued commands and other calls do not matter |
| `NotifyListenerRelisten.AttendedIsHeardUnlessMissed` | db/src/notify.ts:289-314 | in every reachable state with a live client whose loop is over, whatever else is in progress, a channel with a finished, still registered subscribe is listened to if and only if the loop did not miss it |
| `NotifyListenerRelisten.AnsweredSubscribeRecovers` | db/src/notify.ts:310-313 | once a later subscribe's LISTEN is answered on a connection whose loop threw, the channel is listened to in every later state in which that connection is the live client and the channel has a finished, still registered subscribe |
| `NotifyListenerRelisten.UnheardUntilSubscribedAgain` | db/src/notify.ts:289-314 | a channel that a connection does not listen to, and that neither a queued LISTEN nor a call in progress will ask for, stays unheard on it in every run without a new subscribe for the channel |
| `NotifyListenerRelisten.RefusedRelistenLeavesChannelDeaf` | db/src/notify.ts:289-314 | a reachable state with a live current client, nothing in flight, a subscribed channel not listened to, and no step of the listener itself enabled |
| `PgListener.WokenExactly` | db/src/notify.ts:263-270 | what one notification wakes is the part of the Set up to its first handler that throws: a handler is woken, once and in insertion order, exactly when no handler before it threw |
| `PgListener.PgNotifyListener.constructor` | db/src/notify.ts:153-171 | a new listener is the initial state of the machine |
| `PgListener.PgNotifyListener.Subscribe` | db/src/notify.ts:203-211 | up to its first await, subscribe does to the fields exactly the machine's Subscribe step |
| `PgListener.PgNotifyListener.EnsureConnected` | db/src/notify.ts:251-259 | starts or joins the one connect in flight, and does nothing when closed or connected |
| `PgListener.PgNotifyListener.SendListen` | db/src/notify.ts:212 | after the connection is ensured, LISTEN goes to the client of that moment, or to nobody when there is none |
| `PgListener.PgNotifyListener.SubscribeFailed` | db/src/notify.ts:213-223 | the catch block: deletes the handler from the Set its closure captured, and the channel's entry when that Set is empty |
| `PgListener.PgNotifyListener.Unsubscribe` | db/src/notify.ts:224-233 | the returned closure: deletes the handler from the Set registered now, and with its last handler the channel, sending UNLISTEN to the current client |
| `PgListener.PgNotifyListener.Close` | db/src/notify.ts:237-249 | clears the registry (and so every running loop's keys) and releases the current client if there is one |
| `PgListener.PgNotifyListener.Connected` | db/src/notify.ts:261-290 | the pool's answer installs the client and starts the loop on the keys of that moment, closed or not |
| `PgListener.PgNotifyListener.Relisten` | db/src/notify.ts:290-292 | one turn of the loop: LISTEN for the next remaining key |
| `PgListener.PgNotifyListener.ConnectOver` | db/src/notify.ts:253-258 | when connect settles, `connecting` is cleared and the subscribes that awaited it resume or throw |
| `PgListener.PgNotifyListener.OnError` | db/src/notify.ts:295-314 | on an open listener the client is cleared, the stale connection detached and released once, and with channels registered `connecting` names a connect in flight, a new one exactly if there was none; with no channel none is started; a closed listener is left as it was |
| `PgListener.PgNotifyListener.OnNotification` | db/src/notify.ts:263-270 | wakes only handlers registered for that channel, each at most once, and all of them when none throws |
| `SystemPool.LastSetDecides` | db/src/orgScope.ts:209-213 | after any calls the pool is the last one set since the last reset, and counts as explicitly configured |
| `SystemPool.FirstGetDecides` | db/src/orgScope.ts:189-201 | without a set since the last reset, the first get since then decides: the environment's URL builds one pool, a blank one configures nothing |
| `SystemPool.NothingDecidesYet` | db/src/orgScope.ts:216-220 | after a reset and before any get or set the pool is unresolved |
| `SystemPool.OptInIsLastAllow` | db/src/orgScope.ts:229-231 | the opt-in is what the last allow call said; reset does not clear it |
| `SystemPool.ScopePoolFromHistory` | db/src/orgScope.ts:189-269 | the pool a system scope runs on, or its refusal to run, is a function of the calls made; the passed tenant pool is used only after an explicit set to undefined or under the opt-in |
| `SystemPool.HistoryCases` | db/src/orgScope.ts:163-231 | those cases cover every history of calls |
| `SystemPool.SystemPoolModule.GetSystemPool` | db/src/orgScope.ts:189-201 | the memoising get does to the variables what the history function says |
| `SystemPool.SystemPoolModule.SetSystemPool` | db/src/orgScope.ts:209-213 | likewise for set |
| `SystemPool.SystemPoolModule.ResetSystemPool` | db/src/orgScope.ts:216-220 | likewise for reset |
| `SystemPool.SystemPoolModule.AllowRuntimePoolAsSystemForTests` | db/src/orgScope.ts:229-231 | likewise for the opt-in |
| `SystemPool.SystemPoolModule.EffectivePool` | db/src/orgScope.ts:238-269 | the two gets of a system scope choose the pool that the history determines, or refuse |
| `OrgScopeDiscipline.EnterKeeps` | db/src/orgScope.ts:132-138 | opening a scope either fails and gives everything back, or holds exactly one connection more, in a fresh transaction whose org setting is the scope's |
| `OrgScopeDiscipline.ExecKeepsDiscipline` | db/src/orgScope.ts:119-282 | any work at any failure point keeps the ambient connection checked out, alive, in an open transaction of the ambient org; touches no other connection in use; and every statement sees one connection per enclosing scope that opened one |
| `OrgScopeTheorems.ScopeDiscipline` | db/src/orgScope.ts:119-282 | from an idle world, every statement ran under its own org on a live transaction, holding exactly as many connections as enclosing scopes that opened one, and afterwards every checkout was released once and no transaction or org setting remains |
| `OrgScopeWakes.CollapseKeepsIds` | db/src/allocatorEventStore.ts:59-81 | collapsing identical notifications of a transaction loses no event id |
| `OrgScopeWakes.AppendTx` | db/src/allocatorEventStore.ts:59-81 | an append leaves its transaction aborted, untouched, or with the row and exactly the notifications owed for it; it throws without aborting exactly on a malformed run id |
| `OrgScopeWakes.ExecTells` | db/src/orgScope.ts:119-282 | any work keeps, for the database and for each open transaction, the equality of announced ids and rows |
| `OrgScopeTheorems.DurableExactlyWhenWoken` | db/src/allocatorEventStore.ts:59-81 | over any nest of scopes the ids delivered to the dispatcher are, in order, those of the durable event rows with a well-formed or absent run id; the durable rows and the deliveries are, in the same order, those of the run's commits, each of which wakes every run and event of its own rows once and nobody else; and all rows are announced if and only if none has a malformed run id |
| `OrgScopeCommitLog.OpenedScopeWakesForWhatItCommits` | db/src/allocatorEventStore.ts:59-81 | for any opened scope and work at every failure point, the end of the scope delivers exactly the wakes of the rows that it makes durable, each once, whoever was woken before |
| `OrgScopeCommitLog.ExecCommits` | db/src/orgScope.ts:119-282 | any work extends the durable rows and the deliveries by those of its scopes' commits, in order, each commit being all that its scope stored together with the wakes of it |
| `OrgScopeTheorems.PropagatedAppendsAreAllWoken` | db/src/allocatorEventStore.ts:59-81 | if no append with a malformed run id is caught inside its own transaction, delivered ids are exactly the ids of all durable events, in commit order |
| `OrgScopeTheorems.SwallowedAppendIsSilent` | db/src/allocatorEventStore.ts:67-80 | an append with the run id "run 1", caught inside its scope, becomes durable and nobody is woken |
| `OrgScopeCommits.ExecStores` | db/src/orgScope.ts:119-282 | any work grows the transaction of its scope by exactly the rows whose inserts it saw succeed, in order, and leaves it aborted exactly when a query of it was rejected, whatever scopes it opens on other connections |
| `OrgScopeCommits.OpenedScopeIsAllOrNothing` | db/src/orgScope.ts:132-146 | for any opened scope and work at every failure point: all rows its own statements stored become durable if and only if it reports success and no query of its transaction was rejected; otherwise none does |
| `OrgScopeCommits.SuccessfulScopeCommitsUnlessAFailureIsCaught` | db/src/orgScope.ts:132-146 | a scope, org or system, with none of its own statements below a catch has made all it stored durable whenever it reports success |
| `OrgScopeTheorems.CaughtFailureLosesTheScope` | db/src/orgScope.ts:132-146 | a caught failing insert loses the scope's earlier insert although the scope reports success |
| `OrgScopeCommits.JoinedScopesWriteIntoTheOuterTransaction` | db/src/orgScope.ts:124-131 | nested same-pool scopes open no connection and commit nothing; the rows they store, those and no others, are appended in order to the enclosing transaction |
| `OrgScopeCommits.JoinedWritesAreDurableWithTheOuterCommit` | db/src/orgScope.ts:124-146 | around work that only joins, the durable rows grow by exactly the rows stored when the enclosing scope succeeds with no query rejected, and by nothing otherwise |
| `OrgScopeTheorems.RejectedExactlyByTheInnermostScope` | db/src/orgScope.ts:124-131 | a scope is rejected with the world untouched, whatever its work, if and only if its org id is malformed or the innermost scope is an org scope of the same pool under another org |
| `OrgScopeTheorems.ScopeInBetweenHidesTheOuterOrg` | db/src/orgScope.ts:126-131 | through any scope that does not join the outer pool a second org's scope opens there and commits while the first org's transaction is open |
| `OrgScopeTheorems.DurableRowsAreOfWritableOrgs` | db/src/schemaIntegrationPolicy.ts:5-12 | for any rows already there and any bypassing pools, what work makes durable belongs to the orgs of its org scopes, or to orgs that its inserts name inside a scope on a bypassing pool or a system scope |
| `OrgScopeTheorems.DurableRowsStayInTheNamedOrgs` | db/src/schemaIntegrationPolicy.ts:5-12 | beside a configured system pool and on any database, work that opens no system scope and no org scope on a bypassing pool adds durable rows only of the orgs its scopes name |
| `OrgScopeReads.ReadShowsExactly` | db/src/schemaIntegrationPolicy.ts:5-12 | a select shows, in order and as often as they occur, exactly those of the durable rows followed by its transaction's own rows whose org is the transaction's; on a bypassing pool all of them |
| `OrgScopeReads.ExecAlike` | db/src/schemaIntegrationPolicy.ts:5-12 | for any work under the policy, any enclosing scope and every failure point: two worlds that agree on the durable rows of its orgs, on the connections and on the tape give the same outcome, the same rows stored and the same commits, and are left as alike as they were |
| `OrgScopeReads.UnnamedOrgsAreInvisible` | db/src/schemaIntegrationPolicy.ts:5-12 | so from outside any scope, rows of orgs that the work opens no scope for make no difference to anything it does |
| `OrgScopeOutcomes.InsertSucceedsExactly` | db/src/schemaIntegrationPolicy.ts:5-12 | an insert succeeds if and only if its query does, the transaction is not aborted, and the row's org is the transaction's or the pool bypasses; then exactly that row is added, otherwise the transaction is aborted |
| `OrgScopeOutcomes.SelectSucceedsExactly` | db/src/orgScope.ts:132-146 | a select succeeds if and only if its query does in an unaborted transaction; it shows the same rows before and after, and a failing one aborts the transaction |
| `OrgScopeOutcomes.AppendSucceedsExactly` | db/src/allocatorEventStore.ts:59-81 | an append succeeds if and only if the org is not blank, the payload parses, the run id is absent or well formed, the insert is permitted in an unaborted transaction, and its two or three queries succeed |
| `OrgScopeOutcomes.AbortedScopeStoresNothing` | db/src/orgScope.ts:132-146 | after a rejected query no work stores anything in the transaction, whatever it catches |
| `OrgScopeOutcomes.EnterSucceedsExactly` | db/src/orgScope.ts:132-137 | a scope opens if and only if the checkout, BEGIN and, for an org scope, SET LOCAL succeed |
| `OrgScopeOutcomes.OpenedScopeServesItsWork` | db/src/orgScope.ts:132-138 | the work of a scope runs exactly when it opened, on a connection of the pool it named and in a transaction under its org |
| `OrgScopeOutcomes.EmptyScopeSucceedsExactly` | db/src/orgScope.ts:132-146 | a scope that does nothing succeeds if and only if its checkout, BEGIN, SET LOCAL and COMMIT do |
| `OrgScopeOutcomes.ThrownScopeCommitsNothing` | db/src/orgScope.ts:141-143 | a scope whose work ends in a throw throws, and commits nothing beyond what scopes inside it committed before |
| `OrgScopeOutcomes.FailedRollbackRetiresTheConnection` | db/src/orgScope.ts:141-146 | a connection whose ROLLBACK fails is given back dead and no later work runs on it; after one that succeeds it is as usable as before |
| `OrgScopeOutcomes.WithoutScopeNothingHappens` | db/src/orgScope.ts:93-96 | outside any scope there is no client: every statement throws and nothing changes |
| `OrgScopeOutcomes.SystemScopeRunsOnTheSystemPool` | db/src/orgScope.ts:260-282 | a system scope runs without an org on the configured system pool, on the passed one only when none is configured and the process opted in, and is refused before any query otherwise |
| `ScopedDatabase.Database.AppendAllocatorEvent` | db/src/allocatorEventStore.ts:59-81 | the ordered steps of the append change the database exactly as the append function says; inside a transaction they touch no other connection and leave no row without its wakes |
| `ScopedDatabase.Database.OpenScope` | db/src/orgScope.ts:132-137 | checkout, BEGIN and SET LOCAL, with rollback and release when one of the last two fails; either the books are as before or the new connection serves the scope |
| `ScopedDatabase.Database.CloseScope` | db/src/orgScope.ts:138-146 | COMMIT or ROLLBACK after the work, and release in every case; no other connection is touched and no durable row is left without its wake |
| `ScopedDatabase.Database.RunWithOrgScope` | db/src/orgScope.ts:119-147 | the imperative org scope equals the interpreter's, including joining and rejection; it leaves every connection released as often as checked out, the enclosing scopes' connections as they were, and no durable row without its wake |
| `ScopedDatabase.Database.RunWithSystemScope` | db/src/orgScope.ts:260-282 | likewise for the imperative system scope |
| `ScopedDatabase.Database.RunWork` | db/src/orgScope.ts:119-282 | likewise for any work tree, selects included, so every theorem about the interpreter is one about the imperative scopes |
| `OrgScopeTaskInvariants.TaskStepKept` | db/src/orgScope.ts:119-282 | every step of one caller keeps its own connections as their scopes need them, leaves all others in use untouched, and loses no connection and no wake |
| `OrgScopeTaskTheorems.StepKeepsGood` | db/src/orgScope.ts:119-282 | every step of any caller keeps: exactly the connections of the callers' scopes and openings are checked out, no two callers share one, and wakes match rows save those an append in progress still owes |
| `OrgScopeTaskTheorems.EachScopeHasItsOwnConnection` | db/src/orgScope.ts:132-146 | under any interleaving any two open scopes have different connections, each alive in a transaction under its scope's org that holds exactly what that scope stored |
| `OrgScopeTaskTheorems.OtherCallersAreUntouched` | db/src/orgScope.ts:132-146 | a step of one caller leaves every connection of the others, and their transactions, exactly as they were |
| `OrgScopeTaskTheorems.RunIsLogged` | db/src/orgScope.ts:132-146 | along any interleaving the durable rows and the deliveries grow, in commit order, by commits that are all that one scope stored, with the wakes of exactly those rows; nothing else becomes durable or wakes anybody |
| `OrgScopeTaskTheorems.EveryCallerFinishes` | db/src/orgScope.ts:132-146 | a caller that gets as many turns as its work is large has returned, whatever fails and whatever the others do |
| `OrgScopeTaskTheorems.ConcurrentCallers` | db/src/allocatorEventStore.ts:59-81 | for any callers, works and interleaving the dispatcher's ids are at every moment those of the durable well-formed events in commit order, and after enough turns for each caller every connection is back without a transaction |
| `OrgScopeTaskRefinement.AloneIsExec` | db/src/orgScope.ts:119-282 | steps of one caller in a row lead from any work to exactly the world, outcome and stored rows that the interpreter gives |
| `OrgScopeTaskRefinement.UninterruptedCallerIsExec` | db/src/orgScope.ts:119-282 | so a caller that is not interrupted among any others acts as the interpreter says and leaves the others as they were |
| `WakeDelivery.DeliveryReachesExactlyItsHandlers` | db/src/notify.ts:263-270 | a delivery calls a handler, once, if and only if the held connection listens to the channel, the handler is registered for it, and no handler before it in the Set throws |
| `WakeDelivery.DispatcherIsHeardWhereEventsFlow` | db/src/notify.ts:203-234 | where every live subscribe holds its registration, a dispatcher with a live subscribe is registered, and heard on every live client that has a finished subscribe for its channel and whose loop does not owe it, whatever else is in progress |
| `WakeDelivery.DispatcherReceivesExactly` | db/src/notify.ts:131-136 | along any run of one listener without eviction and before close, a dispatcher receives, in order and once each, exactly the event notifications that are heard and that no handler before it cuts off |
| `WakeDelivery.DispatcherHearsEachDurableEventOnce` | db/src/notify.ts:131-136 | over any nest of scopes and along any such run: if the dispatcher's channel is attended and not owed where events arrive and no handler before it throws on them, it is called once for each durable event with a well-formed or absent run id, in commit order, and never for one that was rolled back |
| `WakeDelivery.DispatcherHearsAllCallers` | db/src/notify.ts:131-136 | the same at every moment of any interleaving of any number of callers |
| `Tenancy.Simulate` | db/src/schemaIntegrationPolicy.ts:5-12 | with the org in the key, a system and the one in which only org a's turns are taken stay equal as far as a can see, step by step |
| `Tenancy.NonInterference` | db/src/orgScope.ts:119-147 | any interleaving of adaptive org-scoped programs gives org a the same answers and the same final rows as running a alone |
| `TenancyEffects.TurnDoesAsTold` | db/src/orgScope.ts:132-146 | one turn of any session changes the table by nothing, unless it is the COMMIT of a transaction none of whose statements was refused, and then by exactly the changes of its accepted statements in order; and each statement is answered exactly from its org's rows among the committed ones overlaid by the transaction's own changes |
| `TenancyEffects.TableIsTheCommittedChanges` | db/src/orgScope.ts:132-146 | after any interleaving the table is the one at the start with the changes of the committed transactions alone, whole and in the order of their COMMITs; what was rolled back or refused is not in it |
| `Tenancy.IsolatesExactlyWhenKeyedByOrg` | db/src/schemaIntegrationPolicy.ts:5-12 | that holds for all systems, schedules and orgs if and only if the table's key contains the org |
| `Tenancy.IdAloneInterferes` | db/migrations/0000_collapsed_baseline.sql:938-961 | on a table keyed by the id alone, a committed row of B makes A's insert of the same id fail, although A cannot see it |
| `Tenancy.IdAloneIsolatesUnlessDisturbed` | db/migrations/0000_collapsed_baseline.sql:938-961 | on such a table one run gives org a the answers and rows of running alone if and only if, at each insert of an id that a does not hold itself, a row of another org holds the id exactly if one did at the start |
| `Lineage.ApplyKeepsConsistent` | db/src/schemaEvents.ts:30-65 | the checks made for one statement, which may touch any number of rows of any tables, suffice to keep every foreign key of every row satisfied |
| `Lineage.ReachableIsConsistent` | db/src/schemaCore.ts:106-118 | so every database reached by inserts, updates and deletes of any rows satisfies them all |
| `Lineage.KeysMeanOneLineage` | db/src/schemaEvents.ts:31-65 | for all eight null shapes, the seven keys admit an event if and only if its coordinates lie on one line of org, project, spec and run |
| `Lineage.EventsStayInOneLineage` | db/src/schemaEvents.ts:31-65 | in every reachable database each event lies in one lineage of its own org |
| `Lineage.StrayIsStoppedOnlyByItsKey` | db/src/schemaEvents.ts:31-60 | for each of the six smaller keys an event that all the other six admit and that lies in no lineage |
| `Lineage.ExactlySixKeysAreNeeded` | db/src/schemaEvents.ts:31-65 | a choice of the keys keeps the events of every reachable database in one lineage if and only if it contains those six |
| `Lineage.IssueLoopPathsStayInOneProject` | db/src/schemaIssueLoops.ts:179-204 | in every reachable database a causal path of any length stays in one org and one project |
| `Lineage.FindingsShareTheirLoopsProject` | db/src/schemaIssueLoops.ts:129-145 | and each finding has the org and project of its loop |
| `Lineage.AcceptedExactlyWhenConsistent` | db/src/schemaEvents.ts:30-65 | on a consistent database the checks accept exactly the statements that keep every key of every row satisfied and change no finding |
| `Lineage.EventAcceptedExactly` | db/src/schemaEvents.ts:31-65 | a new event is accepted if and only if its org exists and it lies in one lineage of it |
| `Lineage.EdgeAcceptedExactly` | db/src/schemaIssueLoops.ts:179-204 | a new causal edge is accepted if and only if it joins two different loops of its org and project |
| `Lineage.FindingAcceptedExactly` | db/src/schemaIssueLoops.ts:129-145 | a new finding is accepted if and only if its loop exists in its org and project |
| `Lineage.FindingsStay` | db/src/schemaIssueLoops.ts:114-145 | a finding that any statement has inserted is in every later database, unchanged |
| `Watchdog.Watch` | scripts/smoke/plane-split-worker.ts:428-494 | the loop with its two sliding windows ends at the first poll where the job is terminal or the last 20 observations since the claim share one status and one heartbeat; it reports the latter as a stall, never before the claim, and for the former each verdict under its exact condition: passed if and only if the job has the given org, a row is visible under its scope and none under the empty one, and the run has a status other than `queued` |
| `Watchdog.FlatExactly` | scripts/smoke/plane-split-worker.ts:476-489 | the history is flat if and only if some observation had left the queue and the last 20, all from then on, agree in status and heartbeat |
| `Watchdog.EndsExactly` | scripts/smoke/plane-split-worker.ts:428-490 | the loop ends at a poll if and only if the status there is one of the four terminal ones or the history up to it is stuck in that sense |
| `Watchdog.WindowsSnoc` | scripts/smoke/plane-split-worker.ts:476-480 | after every poll both windows equal the last min(n, 20) observations since the claim |
| `Watchdog.EndsExactlyWhenWindowsStall` | scripts/smoke/plane-split-worker.ts:481-489 | the windows report a stall exactly when the history is flat over its last 20 observations since the claim |
| `Watchdog.FewChangesLeaveAFlatRun` | scripts/smoke/plane-split-worker.ts:428-433 | k changes cannot break 19(k+1)+1 observations into runs all shorter than a window |
| `Watchdog.WatchdogEndsInTime` | scripts/smoke/plane-split-worker.ts:428-490 | with at most k changes of status and heartbeat since the claim, the loop has ended within 19(k+1)+1 polls since the claim |
| `Watchdog.BoundIsTight` | scripts/smoke/plane-split-worker.ts:428-490 | for every k some history with k changes is still polling after 19(k+1) polls |
| `EnvFile.ReadLine` | scripts/dev/seed-platform-creds.ts:130-150 | one line assigns at most one allowlisted key, to a non-blank value |
| `EnvFile.ParseFile` | scripts/dev/seed-platform-creds.ts:121-152 | the parser's loop yields only allowlisted keys with non-blank values, as the line-by-line function says |
| `EnvFile.LastAssignmentWins` | scripts/dev/seed-platform-creds.ts:130-150 | a key's value is that of the last line that assigns it |
| `EnvFile.AssignedIsPresent` | scripts/dev/seed-platform-creds.ts:130-150 | a key is present if and only if some line assigns it |
| `EnvFile.OtherLinesDoNotMatter` | scripts/dev/seed-platform-creds.ts:132-148 | lines that assign nothing may be inserted anywhere without changing the result |
| `EnvFile.LineRoundTrip` | scripts/dev/seed-platform-creds.ts:131-149 | a printed `KEY="value"` line reads back if and only if the key is plain (no `=`, no outer space, no leading `#` or `export `) and the value is not blank |
| `EnvFile.AssignmentReads` | scripts/dev/seed-platform-creds.ts:131-149 | a line with any outer space, an optional `export `, an allowlisted key, spaces around `=` and a value, quoted either way or bare, assigns exactly that value unless it is blank |
| `EnvFile.UnquoteExactly` | scripts/dev/seed-platform-creds.ts:142-146 | one pair of equal quotes around the value is taken off, and nothing else is |
| `EnvFile.OtherwiseNothing` | scripts/dev/seed-platform-creds.ts:132-148 | blank lines, comments, lines without `=` and lines for other keys assign nothing |
| `EnvFile.FileRoundTrip` | scripts/dev/seed-platform-creds.ts:121-152 | printing any list of printable entries and parsing the text gives their map, whatever quotes, `=`, `#` or edge spaces the values hold |
| `EnvFile.EveryMapIsAList` | scripts/dev/seed-platform-creds.ts:129 | every map is the map of such a list, so the round trip covers all maps |
| `EnvFile.ResolveSeedSecrets` | scripts/dev/seed-platform-creds.ts:164-196 | every allowlisted key gets the trimmed exported value if that is not blank, whatever the files hold; otherwise the env-file's, otherwise the local file's, otherwise nothing; no other key is resolved |
| `EnvFile.ResolveKey` | scripts/dev/seed-platform-creds.ts:176-194 | one turn of that loop |
| `EnvFile.HigherSourceStands` | scripts/dev/seed-platform-creds.ts:176-194 | replacing a lower source leaves every key that a higher one gives as it was |
| `EnvFile.SeedPlatform` | scripts/dev/seed-platform-creds.ts:205-230 | a missing secret leaves the store untouched; only a failing put can leave a proper prefix written, in order |
| `EnvFile.PutsWhere` | scripts/dev/seed-platform-creds.ts:224-229 | a written ref holds its secret whatever the store held before, and other refs keep their value |
| `EnvFile.SeedingIsIdempotent` | scripts/dev/seed-platform-creds.ts:198-204 | seeding again after any prefix gives the store one full seeding gives |
| `CliArgs.ParseStrict` | cli/src/main.ts:244-264 | the strict parser's index loop computes its recursive specification, errors included |
| `CliArgs.ParseLenient` | cli/src/commands/args.ts:5-29 | likewise for the lenient parser |
| `CliArgs.StrictRoundTrip` | cli/src/main.ts:244-275 | rendering any list of flags and positionals and parsing it gives the positionals in order and each key's values in order |
| `CliArgs.StrictOutcome` | cli/src/main.ts:244-264 | every argument list is a rendering of flags with values and positionals, followed by nothing or by a flag without a value; the parser fails exactly in the second case, and names that flag; in the first it gives the positionals and each key's values in order |
| `CliArgs.LenientOutcome` | cli/src/commands/args.ts:5-29 | every argument list reads as positionals, flags with values and flags alone; the lenient parser fails if and only if a positional follows a `--_` that stands alone with no `--_ value` between; otherwise it gives the positionals in order and each key its values, where a flag alone (`--json`, the last one, or one before a flag) leaves `true` as the only one |
| `CliArgs.LookupsCountValues` | cli/src/main.ts:277-307 | on a rendered list `required` succeeds exactly for keys given once, `optional` for keys given at most once, and `requiredMany` fails exactly without values |
| `CliArgs.ParsersAgreeExactlyWithoutJson` | cli/src/commands/args.ts:5-40 | on everything the strict parser accepts, the lenient one returns the same if and only if there is no `--json` |
| `CliArgs.LenientRoundTrip` | cli/src/commands/args.ts:5-40 | so the lenient parser gives rendered lists back too, unless a flag is `--json` |
| `SqlText.QuotedReadsBack` | db/src/notify.ts:322-324 | a text quoted by doubling, followed by anything but its quote, is read by PostgreSQL's lexical rules as one token holding exactly that text |
| `SqlText.QuotedIdentifierIsTheName` | db/src/notify.ts:322-324 | a quoted channel is one identifier token, and names the channel itself if and only if it is not empty, has no NUL and fits in 63 bytes |
| `SqlText.TruncatedIsLongestPrefix` | db/src/notify.ts:322-324 | a longer identifier denotes its longest prefix that fits in 63 bytes |
| `SqlText.EnumLiteralsReadBack` | db/src/schemaCore.ts:23-26 | the joined literals of an enum check are read back as the same list, with any quotes and commas |
| `SqlText.GuardedPayloadIsTheId` | db/src/notify.ts:73-100 | a NOTIFY statement is made if and only if the id passes the guard; it starts with NOTIFY and the channel, and all that follows is one string constant equal to the id |
| `MigrationLock.Migrate` | db/src/migrate.ts:9-28 | one call unlocks exactly if its lock call returned, and releases exactly if it connected, wherever it fails |
| `MigrationLock.StepKeepsInv` | db/src/migrate.ts:9-28 | every step of any number of concurrent calls keeps sessions paired with their users and the lock's account settled |
| `MigrationLock.AtMostOneMigratesOnALiveSession` | db/src/migrate.ts:13-18 | of two calls inside the body at once at most one still has a live session |
| `MigrationLock.MutualExclusion` | db/src/migrate.ts:13-18 | while no session dies, at most one call is inside the body, whatever queries fail |
| `MigrationLock.AnotherEntersExactlyBesideADeadSession` | db/src/migrate.ts:13-18 | in every reachable state a call waiting on a live session can enter beside one in the body if and only if the latter's session is dead and no third session has the lock |
| `MigrationLock.DeadSessionAdmitsASecondMigrator` | db/src/migrate.ts:13-18 | a run in which a dead session leaves two calls inside the body |
| `MigrationLock.FinishedCallsAreWellFormed` | db/src/migrate.ts:19-27 | each finished concurrent call has issued exactly what one sequential call issues, and its connection is back in the pool |
| `MigrationLock.NoCallIsStuck` | db/src/migrate.ts:13-27 | in every reachable state each unfinished call has a step, and one that waits to unlock on a live session can do so |
| `MigrationLock.CheckoutIsExclusive` | db/src/migrate.ts:9-12 | a checkout hands out a live session that no other call uses |
| `MigrationLock.LockIsFreeExactlyWithoutLeaks` | db/src/migrate.ts:13-27 | after all calls have finished the lock is free if and only if, on the sessions still alive, no step of the run was a lock call that failed after its grant or an unlock that failed without releasing |

## Left out

- The orchestrator, merge queue, merge authority and conflict resolver: their source is not part of this model.
- `onConnectionError` observers, `notifyJobEnqueued` and `notifyDagChanged`: one-line effects beside the modelled ones.
- The listener's liveness after a lost reconnect: the code leaves recovery to the next subscribe (`DesertedExactly` says when that is needed).
- Handlers that subscribe or unsubscribe during a dispatch: the insertion order of a channel's Set is a parameter of one dispatch, and the Set does not change while it runs.
- Pool exhaustion, blocking on row locks between sessions, and serialization anomalies: statements of `Tenancy` are atomic and the pool is unbounded.
- Detached continuations that use a connection after its scope ended, and the job-org and system-job markers of db/src/orgScope.ts.
- The difference between an org setting that was never set and one that reverted to the empty string: both match no org id.
- Event payloads and their schemas: whether a payload parses is one flag of the append's input.
- The foreign keys to inbox sources, the origin issue loop of specs, other tables, unique indexes other than keys, and CHECK constraints other than the edge table's rejection of self-loops.
- Reading files, Vault, console output, mTLS and HTTP probes, the pause between polls and the migration runner: file contents, observations and outcomes are inputs.
- Inherited property names of JavaScript objects such as `toString` as flag names: parsed arguments are a plain map.
- UTF-16 surrogate pairs: a Dafny string is a sequence of characters.
- A NUL in an SQL string constant: PostgreSQL refuses it, the constant lexer of `SqlText` does not.
- Values read by a query as arguments of later statements: a select's result chooses between two pieces of work, each with its own constants.
