/**
 * Tenant lineage as a database invariant: composite foreign keys (MATCH SIMPLE, NO
 * ACTION) over projects, specs, runs, events and the issue-loop tables.
 *
 * A statement is accepted when the checks PostgreSQL makes for it pass: the foreign
 * keys of the rows it writes, and those of the rows that refer to the rows it changes.
 */
module Lineage {
  import opened Base

  type Id = string
  type LoopKey = (Id, Id)   // (org_id, id)

  datatype Project = Project(org: Id)
  datatype Spec = Spec(org: Id, project: Id)
  datatype Run = Run(org: Id, project: Id, spec: Id)
  datatype Event = Event(org: Id, project: Option<Id>, spec: Option<Id>, run: Option<Id>)
  datatype Finding = Finding(project: Id, issueLoop: Id)
  datatype Edge = Edge(org: Id, project: Id, source: Id, related: Id, relation: Id)

  datatype Db = Db(
    orgs: set<Id>,
    projects: map<Id, Project>,
    specs: map<Id, Spec>,
    runs: map<Id, Run>,
    events: map<nat, Event>,
    loops: map<LoopKey, Id>,            // the loop's project
    findings: map<LoopKey, Finding>,
    edges: set<Edge>)

  const EMPTY: Db := Db({}, map[], map[], map[], map[], map[], map[], {})

  // ---- the foreign keys ----

  predicate HasProject(db: Db, org: Id, project: Id) {
    project in db.projects && db.projects[project].org == org
  }

  predicate HasSpec(db: Db, org: Id, project: Option<Id>, spec: Id) {
    spec in db.specs && db.specs[spec].org == org && (project.Some? ==> db.specs[spec].project == project.value)
  }

  predicate HasRun(db: Db, org: Id, project: Option<Id>, spec: Option<Id>, run: Id) {
    run in db.runs && db.runs[run].org == org
    && (project.Some? ==> db.runs[run].project == project.value) && (spec.Some? ==> db.runs[run].spec == spec.value)
  }

  predicate HasLoop(db: Db, org: Id, project: Id, id: Id) {
    (org, id) in db.loops && db.loops[(org, id)] == project
  }

  predicate ProjectOk(db: Db, p: Project) { p.org in db.orgs }

  predicate SpecOk(db: Db, s: Spec) {
    s.org in db.orgs && s.project in db.projects && HasProject(db, s.org, s.project)
  }

  predicate RunOk(db: Db, r: Run) {
    r.org in db.orgs && r.project in db.projects && r.spec in db.specs
    && HasProject(db, r.org, r.project) && HasSpec(db, r.org, Some(r.project), r.spec)
  }

  /** The seven lineage keys of `events`. */
  datatype EventKey = RunTenant | SpecTenant | ProjectLineage | RunSpec | RunProject | SpecLineage | RunLineage

  const ALL: set<EventKey> := {RunTenant, SpecTenant, ProjectLineage, RunSpec, RunProject, SpecLineage, RunLineage}

  /** MATCH SIMPLE: a key with a null column is not checked. */
  predicate KeyOk(db: Db, e: Event, key: EventKey) {
    match key
    case RunTenant => e.run.Some? ==> HasRun(db, e.org, None, None, e.run.value)
    case SpecTenant => e.spec.Some? ==> HasSpec(db, e.org, None, e.spec.value)
    case ProjectLineage => e.project.Some? ==> HasProject(db, e.org, e.project.value)
    case RunSpec => e.spec.Some? && e.run.Some? ==> HasRun(db, e.org, None, e.spec, e.run.value)
    case RunProject => e.project.Some? && e.run.Some? ==> HasRun(db, e.org, e.project, None, e.run.value)
    case SpecLineage => e.project.Some? && e.spec.Some? ==> HasSpec(db, e.org, e.project, e.spec.value)
    case RunLineage =>
      e.project.Some? && e.spec.Some? && e.run.Some? ==> HasRun(db, e.org, e.project, e.spec, e.run.value)
  }

  predicate KeysOk(db: Db, e: Event, keys: set<EventKey>) {
    forall key :: key in keys ==> KeyOk(db, e, key)
  }

  predicate EventOk(db: Db, e: Event) { e.org in db.orgs && KeysOk(db, e, ALL) }

  predicate LoopOk(db: Db, key: LoopKey, project: Id) {
    key.0 in db.orgs && HasProject(db, key.0, project)
  }

  predicate FindingOk(db: Db, org: Id, f: Finding) {
    org in db.orgs && HasProject(db, org, f.project) && HasLoop(db, org, f.project, f.issueLoop)
  }

  predicate EdgeOk(db: Db, e: Edge) {
    e.org in db.orgs && HasProject(db, e.org, e.project) && e.source != e.related
    && HasLoop(db, e.org, e.project, e.source) && HasLoop(db, e.org, e.project, e.related)
  }

  /** Every row of every table satisfies its keys. */
  ghost predicate Consistent(db: Db) {
    && CoreConsistent(db)
    && (forall i :: i in db.events ==> EventOk(db, db.events[i]))
    && (forall k :: k in db.loops ==> LoopOk(db, k, db.loops[k]))
    && (forall k :: k in db.findings ==> FindingOk(db, k.0, db.findings[k]))
    && (forall e :: e in db.edges ==> EdgeOk(db, e))
  }

  ghost predicate CoreConsistent(db: Db) {
    && (forall p :: p in db.projects ==> ProjectOk(db, db.projects[p]))
    && (forall s :: s in db.specs ==> SpecOk(db, db.specs[s]))
    && (forall r :: r in db.runs ==> RunOk(db, db.runs[r]))
  }

  // ---- statements ----

  /** Rows that refer to project p keep a match in db. */
  ghost predicate ProjectReferrersOk(db: Db, p: Id) {
    && (forall s :: s in db.specs && db.specs[s].project == p ==> SpecOk(db, db.specs[s]))
    && (forall r :: r in db.runs && db.runs[r].project == p ==> RunOk(db, db.runs[r]))
    && (forall i :: i in db.events && db.events[i].project == Some(p) ==> KeyOk(db, db.events[i], ProjectLineage))
    && (forall k :: k in db.loops && db.loops[k] == p ==> LoopOk(db, k, p))
    && (forall k :: k in db.findings && db.findings[k].project == p ==> FindingOk(db, k.0, db.findings[k]))
    && (forall e :: e in db.edges && e.project == p ==> EdgeOk(db, e))
  }

  ghost predicate SpecReferrersOk(db: Db, s: Id) {
    && (forall r :: r in db.runs && db.runs[r].spec == s ==> RunOk(db, db.runs[r]))
    && (forall i :: i in db.events && db.events[i].spec == Some(s) ==>
          KeyOk(db, db.events[i], SpecTenant) && KeyOk(db, db.events[i], SpecLineage))
  }

  ghost predicate RunReferrersOk(db: Db, r: Id) {
    forall i :: i in db.events && db.events[i].run == Some(r) ==>
      && KeyOk(db, db.events[i], RunTenant) && KeyOk(db, db.events[i], RunSpec)
      && KeyOk(db, db.events[i], RunProject) && KeyOk(db, db.events[i], RunLineage)
  }

  ghost predicate LoopReferrersOk(db: Db, key: LoopKey) {
    && (forall k :: k in db.findings && (k.0, db.findings[k].issueLoop) == key ==> FindingOk(db, k.0, db.findings[k]))
    && (forall e :: e in db.edges && ((e.org, e.source) == key || (e.org, e.related) == key) ==> EdgeOk(db, e))
  }

  ghost predicate OrgUnused(db: Db, o: Id) {
    && (forall p :: p in db.projects ==> db.projects[p].org != o)
    && (forall s :: s in db.specs ==> db.specs[s].org != o)
    && (forall r :: r in db.runs ==> db.runs[r].org != o)
    && (forall i :: i in db.events ==> db.events[i].org != o)
    && (forall k :: k in db.loops ==> k.0 != o)
    && (forall k :: k in db.findings ==> k.0 != o)
    && (forall e :: e in db.edges ==> e.org != o)
  }

  /** The row under key k is the same before and after. */
  predicate Kept<K, V(==)>(before: map<K, V>, after: map<K, V>, k: K) {
    k in before && k in after && after[k] == before[k]
  }

  /** Checks on the rows the statement inserted or updated. */
  ghost predicate WrittenOk(db: Db, after: Db) {
    && (forall p :: p in after.projects && !Kept(db.projects, after.projects, p) ==>
         ProjectOk(after, after.projects[p]))
    && (forall s :: s in after.specs && !Kept(db.specs, after.specs, s) ==> SpecOk(after, after.specs[s]))
    && (forall r :: r in after.runs && !Kept(db.runs, after.runs, r) ==> RunOk(after, after.runs[r]))
    && (forall i :: i in after.events && !Kept(db.events, after.events, i) ==> EventOk(after, after.events[i]))
    && (forall k :: k in after.loops && !Kept(db.loops, after.loops, k) ==> LoopOk(after, k, after.loops[k]))
    && (forall k :: k in after.findings && !Kept(db.findings, after.findings, k) ==>
         FindingOk(after, k.0, after.findings[k]))
    && (forall e :: e in after.edges && e !in db.edges ==> EdgeOk(after, e))
  }

  /** Checks on the rows that refer to one the statement deleted or updated. */
  ghost predicate ReferrersOk(db: Db, after: Db) {
    && (forall o :: o in db.orgs && o !in after.orgs ==> OrgUnused(after, o))
    && (forall p :: p in db.projects && !Kept(db.projects, after.projects, p) ==> ProjectReferrersOk(after, p))
    && (forall s :: s in db.specs && !Kept(db.specs, after.specs, s) ==> SpecReferrersOk(after, s))
    && (forall r :: r in db.runs && !Kept(db.runs, after.runs, r) ==> RunReferrersOk(after, r))
    && (forall k :: k in db.loops && !Kept(db.loops, after.loops, k) ==> LoopReferrersOk(after, k))
  }

  /**
   * A statement is given by the tables after it: it may insert, update and delete any
   * number of rows of any tables. Its checks are made at its end, and only on the rows
   * it touched and on those that refer to them. Findings are append-only.
   */
  ghost predicate Accepted(db: Db, after: Db) {
    && WrittenOk(db, after) && ReferrersOk(db, after)
    && forall k :: k in db.findings ==> Kept(db.findings, after.findings, k)
  }

  ghost function Apply(db: Db, after: Db): Db {
    if Accepted(db, after) then after else db
  }

  ghost function ApplyAll(db: Db, statements: seq<Db>): Db {
    if statements == [] then db
    else Apply(ApplyAll(db, statements[..|statements| - 1]), statements[|statements| - 1])
  }

  // ---- every reachable database is consistent ----

  lemma OrgStays(db: Db, after: Db, o: Id)
    requires ReferrersOk(db, after) && o in db.orgs && !OrgUnused(after, o)
    ensures o in after.orgs
  {
  }

  /** A project that a kept row refers to still has its org, or the row was checked again. */
  lemma ProjectStays(db: Db, after: Db, org: Id, p: Id)
    requires HasProject(db, org, p) && Kept(db.projects, after.projects, p)
    ensures HasProject(after, org, p)
  {
  }

  lemma SpecsStayOk(db: Db, after: Db, s: Id)
    requires Consistent(db) && Accepted(db, after) && s in after.specs
    ensures SpecOk(after, after.specs[s])
  {
    if Kept(db.specs, after.specs, s) {
      var row := after.specs[s];
      assert SpecOk(db, row);
      OrgStays(db, after, row.org);
      if Kept(db.projects, after.projects, row.project) { ProjectStays(db, after, row.org, row.project); }
    }
  }

  lemma RunsStayOk(db: Db, after: Db, r: Id)
    requires Consistent(db) && Accepted(db, after) && r in after.runs
    ensures RunOk(after, after.runs[r])
  {
    if Kept(db.runs, after.runs, r) {
      var row := after.runs[r];
      assert RunOk(db, row);
      OrgStays(db, after, row.org);
    }
  }

  lemma ProjectKeyStaysOk(db: Db, after: Db, i: nat)
    requires Accepted(db, after) && Kept(db.events, after.events, i) && KeyOk(db, db.events[i], ProjectLineage)
    ensures KeyOk(after, after.events[i], ProjectLineage)
  {
  }

  lemma SpecKeyStaysOk(db: Db, after: Db, i: nat, key: EventKey)
    requires Accepted(db, after) && Kept(db.events, after.events, i) && KeyOk(db, db.events[i], key)
    requires key.SpecTenant? || key.SpecLineage?
    ensures KeyOk(after, after.events[i], key)
  {
    var e := after.events[i];
    if e.spec.Some? && e.spec.value in db.specs && !Kept(db.specs, after.specs, e.spec.value) {
      assert SpecReferrersOk(after, e.spec.value);
    }
  }

  lemma RunKeyStaysOk(db: Db, after: Db, i: nat, key: EventKey)
    requires Accepted(db, after) && Kept(db.events, after.events, i) && KeyOk(db, db.events[i], key)
    requires key.RunTenant? || key.RunSpec? || key.RunProject? || key.RunLineage?
    ensures KeyOk(after, after.events[i], key)
  {
    var e := after.events[i];
    if e.run.Some? && e.run.value in db.runs && !Kept(db.runs, after.runs, e.run.value) {
      assert RunReferrersOk(after, e.run.value);
    }
  }

  lemma KeyStaysOk(db: Db, after: Db, i: nat, key: EventKey)
    requires Accepted(db, after) && Kept(db.events, after.events, i) && KeyOk(db, db.events[i], key)
    ensures KeyOk(after, after.events[i], key)
  {
    if key.ProjectLineage? {
      ProjectKeyStaysOk(db, after, i);
    } else if key.SpecTenant? || key.SpecLineage? {
      SpecKeyStaysOk(db, after, i, key);
    } else {
      RunKeyStaysOk(db, after, i, key);
    }
  }

  lemma EventsStayOk(db: Db, after: Db, i: nat)
    requires Consistent(db) && Accepted(db, after) && i in after.events
    ensures EventOk(after, after.events[i])
  {
    if Kept(db.events, after.events, i) {
      assert EventOk(db, db.events[i]);
      OrgStays(db, after, after.events[i].org);
      forall key | key in ALL ensures KeyOk(after, after.events[i], key) {
        assert KeyOk(db, db.events[i], key);
        KeyStaysOk(db, after, i, key);
      }
    }
  }

  lemma LoopsStayOk(db: Db, after: Db, k: LoopKey)
    requires Consistent(db) && Accepted(db, after) && k in after.loops
    ensures LoopOk(after, k, after.loops[k])
  {
    if Kept(db.loops, after.loops, k) {
      assert LoopOk(db, k, db.loops[k]);
      OrgStays(db, after, k.0);
    }
  }

  lemma FindingsStayOk(db: Db, after: Db, k: LoopKey)
    requires Consistent(db) && Accepted(db, after) && k in after.findings
    ensures FindingOk(after, k.0, after.findings[k])
  {
    if Kept(db.findings, after.findings, k) {
      assert FindingOk(db, k.0, db.findings[k]);
      OrgStays(db, after, k.0);
    }
  }

  lemma EdgesStayOk(db: Db, after: Db, e: Edge)
    requires Consistent(db) && Accepted(db, after) && e in after.edges
    ensures EdgeOk(after, e)
  {
    if e in db.edges {
      assert EdgeOk(db, e);
      OrgStays(db, after, e.org);
    }
  }

  lemma ProjectsStayOk(db: Db, after: Db, p: Id)
    requires Consistent(db) && Accepted(db, after) && p in after.projects
    ensures ProjectOk(after, after.projects[p])
  {
    if Kept(db.projects, after.projects, p) {
      assert ProjectOk(db, db.projects[p]);
      OrgStays(db, after, after.projects[p].org);
    }
  }

  /** The checks on the touched rows suffice for every row of every table. */
  lemma ApplyKeepsConsistent(db: Db, after: Db)
    requires Consistent(db)
    ensures Consistent(Apply(db, after))
  {
    if Accepted(db, after) {
      forall p | p in after.projects ensures ProjectOk(after, after.projects[p]) { ProjectsStayOk(db, after, p); }
      forall s | s in after.specs ensures SpecOk(after, after.specs[s]) { SpecsStayOk(db, after, s); }
      forall r | r in after.runs ensures RunOk(after, after.runs[r]) { RunsStayOk(db, after, r); }
      forall i | i in after.events ensures EventOk(after, after.events[i]) { EventsStayOk(db, after, i); }
      forall k | k in after.loops ensures LoopOk(after, k, after.loops[k]) { LoopsStayOk(db, after, k); }
      forall k | k in after.findings ensures FindingOk(after, k.0, after.findings[k]) { FindingsStayOk(db, after, k); }
      forall e | e in after.edges ensures EdgeOk(after, e) { EdgesStayOk(db, after, e); }
    }
  }

  /**
   * The checks made for a statement are not only enough: on a consistent database they
   * accept exactly the statements that keep it consistent and change no finding.
   */
  lemma AcceptedExactlyWhenConsistent(db: Db, after: Db)
    requires Consistent(db)
    ensures Accepted(db, after) <==>
              Consistent(after) && forall k :: k in db.findings ==> Kept(db.findings, after.findings, k)
  {
    if Accepted(db, after) {
      ApplyKeepsConsistent(db, after);
    }
    if Consistent(after) {
      ConsistentIsWritten(db, after);
      ConsistentRefers(db, after);
    }
  }

  /** Findings are append-only: no statement, accepted or rejected, changes or removes one ever after. */
  lemma {:induction false} FindingsStay(statements: seq<Db>, n: nat, k: LoopKey)
    requires n <= |statements| && k in ApplyAll(EMPTY, statements[..n]).findings
    ensures Kept(ApplyAll(EMPTY, statements[..n]).findings, ApplyAll(EMPTY, statements).findings, k)
    decreases |statements|
  {
    if n < |statements| {
      var before := statements[..|statements| - 1];
      assert before[..n] == statements[..n];
      FindingsStay(before, n, k);
    } else {
      assert statements[..n] == statements;
    }
  }

  lemma ConsistentIsWritten(db: Db, after: Db)
    requires Consistent(after)
    ensures WrittenOk(db, after)
  {
  }

  lemma ConsistentRefers(db: Db, after: Db)
    requires Consistent(after)
    ensures ReferrersOk(db, after)
  {
    forall o | o !in after.orgs ensures OrgUnused(after, o) { ConsistentUsesOrgs(after, o); }
    forall p ensures ProjectReferrersOk(after, p) { ProjectRefers(after, p); }
    forall s ensures SpecReferrersOk(after, s) { SpecRefers(after, s); }
    forall r ensures RunReferrersOk(after, r) { RunRefers(after, r); }
    forall k ensures LoopReferrersOk(after, k) { LoopRefers(after, k); }
  }

  lemma ConsistentUsesOrgs(db: Db, o: Id)
    requires Consistent(db) && o !in db.orgs
    ensures OrgUnused(db, o)
  {
    forall i | i in db.events ensures db.events[i].org != o { assert EventOk(db, db.events[i]); }
    forall k | k in db.loops ensures k.0 != o { assert LoopOk(db, k, db.loops[k]); }
    forall k | k in db.findings ensures k.0 != o { assert FindingOk(db, k.0, db.findings[k]); }
    forall e | e in db.edges ensures e.org != o { assert EdgeOk(db, e); }
  }

  lemma ProjectRefers(db: Db, p: Id)
    requires Consistent(db)
    ensures ProjectReferrersOk(db, p)
  {
    forall i | i in db.events ensures KeyOk(db, db.events[i], ProjectLineage) { assert EventOk(db, db.events[i]); }
  }

  lemma SpecRefers(db: Db, s: Id)
    requires Consistent(db)
    ensures SpecReferrersOk(db, s)
  {
    forall i, key | i in db.events && key in ALL ensures KeyOk(db, db.events[i], key) {
      assert EventOk(db, db.events[i]);
    }
  }

  lemma RunRefers(db: Db, r: Id)
    requires Consistent(db)
    ensures RunReferrersOk(db, r)
  {
    forall i, key | i in db.events && key in ALL ensures KeyOk(db, db.events[i], key) {
      assert EventOk(db, db.events[i]);
    }
  }

  lemma LoopRefers(db: Db, key: LoopKey)
    requires Consistent(db)
    ensures LoopReferrersOk(db, key)
  {
  }

  /** An edge is accepted exactly between two different loops of its org and project. */
  lemma EdgeAcceptedExactly(db: Db, e: Edge)
    requires Consistent(db) && e !in db.edges
    ensures Accepted(db, db.(edges := db.edges + {e})) <==>
              && e.source != e.related
              && (e.org, e.source) in db.loops && db.loops[(e.org, e.source)] == e.project
              && (e.org, e.related) in db.loops && db.loops[(e.org, e.related)] == e.project
  {
    var after := db.(edges := db.edges + {e});
    if (e.org, e.source) in db.loops {
      assert LoopOk(db, (e.org, e.source), db.loops[(e.org, e.source)]);
    }
    assert EdgeOk(after, e) <==> EdgeOk(db, e);
    assert WrittenOk(db, after) <==> EdgeOk(db, e);
  }

  /** A finding is accepted exactly beside a loop of its own org and project. */
  lemma FindingAcceptedExactly(db: Db, k: LoopKey, f: Finding)
    requires Consistent(db) && k !in db.findings
    ensures Accepted(db, db.(findings := db.findings[k := f])) <==>
              (k.0, f.issueLoop) in db.loops && db.loops[(k.0, f.issueLoop)] == f.project
  {
    var after := db.(findings := db.findings[k := f]);
    if (k.0, f.issueLoop) in db.loops {
      assert LoopOk(db, (k.0, f.issueLoop), db.loops[(k.0, f.issueLoop)]);
    }
    assert FindingOk(after, k.0, f) <==> FindingOk(db, k.0, f);
    assert WrittenOk(db, after) <==> FindingOk(db, k.0, f);
  }

  /** An event is accepted exactly when its org exists and its coordinates lie in one lineage of that org. */
  lemma EventAcceptedExactly(db: Db, i: nat, e: Event)
    requires Consistent(db) && i !in db.events
    ensures Accepted(db, db.(events := db.events[i := e])) <==> e.org in db.orgs && InOneLineage(db, e)
  {
    var after := db.(events := db.events[i := e]);
    KeysMeanOneLineage(db, e);
    forall key ensures KeyOk(after, e, key) <==> KeyOk(db, e, key) {
    }
    assert EventOk(after, e) <==> EventOk(db, e);
    assert after.events[i] == e && forall j :: j in after.events && j != i ==> Kept(db.events, after.events, j);
    assert WrittenOk(db, after) <==> EventOk(db, e);
  }

  lemma {:induction false} ReachableIsConsistent(statements: seq<Db>)
    ensures Consistent(ApplyAll(EMPTY, statements))
  {
    if statements != [] {
      var n := |statements| - 1;
      ReachableIsConsistent(statements[..n]);
      ApplyKeepsConsistent(ApplyAll(EMPTY, statements[..n]), statements[n]);
    }
  }

  // ---- what the seven keys mean ----

  /** One line of ownership in the database, as deep as it goes. */
  datatype Chain = OfProject(project: Id) | OfSpec(project: Id, spec: Id) | OfRun(project: Id, spec: Id, run: Id)

  predicate Owns(db: Db, org: Id, chain: Chain) {
    && HasProject(db, org, chain.project)
    && (!chain.OfProject? ==> chain.spec in db.specs && db.specs[chain.spec] == Spec(org, chain.project))
    && (chain.OfRun? ==> chain.run in db.runs && db.runs[chain.run] == Run(org, chain.project, chain.spec))
  }

  predicate Agrees(e: Event, chain: Chain) {
    && (e.project.Some? ==> e.project.value == chain.project)
    && (e.spec.Some? ==> !chain.OfProject? && e.spec.value == chain.spec)
    && (e.run.Some? ==> chain.OfRun? && e.run.value == chain.run)
  }

  /** All coordinates the event has lie on one line of ownership of its org. */
  ghost predicate InOneLineage(db: Db, e: Event) {
    (e.project.Some? || e.spec.Some? || e.run.Some?) ==> exists chain :: Owns(db, e.org, chain) && Agrees(e, chain)
  }

  /** The key that names all four columns follows from the two three-column keys on runs. */
  const NEEDED: set<EventKey> := ALL - {RunLineage}

  lemma NeededKeysGiveLineage(db: Db, e: Event)
    requires CoreConsistent(db) && KeysOk(db, e, NEEDED)
    ensures InOneLineage(db, e)
  {
    assert forall key :: key in NEEDED ==> KeyOk(db, e, key);
    assert RunTenant in NEEDED && SpecTenant in NEEDED && ProjectLineage in NEEDED;
    assert RunSpec in NEEDED && RunProject in NEEDED && SpecLineage in NEEDED;
    if e.run.Some? {
      var r := db.runs[e.run.value];
      assert RunOk(db, r) && SpecOk(db, db.specs[r.spec]);
      var chain := OfRun(r.project, r.spec, e.run.value);
      assert db.specs[r.spec] == Spec(e.org, r.project);
      assert Owns(db, e.org, chain) && Agrees(e, chain);
    } else if e.spec.Some? {
      var s := db.specs[e.spec.value];
      assert SpecOk(db, s);
      assert Owns(db, e.org, OfSpec(s.project, e.spec.value)) && Agrees(e, OfSpec(s.project, e.spec.value));
    } else if e.project.Some? {
      assert Owns(db, e.org, OfProject(e.project.value)) && Agrees(e, OfProject(e.project.value));
    }
  }

  lemma LineageGivesKeys(db: Db, e: Event)
    requires InOneLineage(db, e)
    ensures KeysOk(db, e, ALL)
  {
    if e.project.Some? || e.spec.Some? || e.run.Some? {
      var chain :| Owns(db, e.org, chain) && Agrees(e, chain);
      forall key | key in ALL ensures KeyOk(db, e, key) {
      }
    }
  }

  /** For all eight null shapes: the keys admit an event exactly when its coordinates lie in one lineage. */
  lemma KeysMeanOneLineage(db: Db, e: Event)
    requires CoreConsistent(db)
    ensures KeysOk(db, e, ALL) <==> InOneLineage(db, e)
    ensures KeysOk(db, e, NEEDED) <==> InOneLineage(db, e)
  {
    if KeysOk(db, e, NEEDED) { NeededKeysGiveLineage(db, e); }
    if InOneLineage(db, e) { LineageGivesKeys(db, e); }
  }

  /** In every reachable database each event lies in one lineage of its own org. */
  lemma EventsStayInOneLineage(statements: seq<Db>, i: nat)
    requires i in ApplyAll(EMPTY, statements).events
    ensures InOneLineage(ApplyAll(EMPTY, statements), ApplyAll(EMPTY, statements).events[i])
  {
    var db := ApplyAll(EMPTY, statements);
    ReachableIsConsistent(statements);
    assert EventOk(db, db.events[i]);
    KeysMeanOneLineage(db, db.events[i]);
  }

  /** Two orgs; org a has two projects, one of them with a run. */
  const TWO_ORGS: Db := Db({"a", "b"},
    map["pa" := Project("a"), "pa2" := Project("a"), "pb" := Project("b")],
    map["sa" := Spec("a", "pa"), "sa2" := Spec("a", "pa2"), "sb" := Spec("b", "pb")],
    map["ra" := Run("a", "pa", "sa"), "rb" := Run("b", "pb", "sb")],
    map[], map[], map[], {})

  /** An event that only the given key refuses. */
  function Stray(key: EventKey): Event
    requires key in NEEDED
  {
    match key
    case RunTenant => Event("a", None, None, Some("rb"))
    case SpecTenant => Event("a", None, Some("sb"), None)
    case ProjectLineage => Event("a", Some("pb"), None, None)
    case RunSpec => Event("a", None, Some("sa2"), Some("ra"))
    case RunProject => Event("a", Some("pa2"), None, Some("ra"))
    case SpecLineage => Event("a", Some("pa2"), Some("sa"), None)
  }

  lemma TwoOrgsAreConsistent()
    ensures CoreConsistent(TWO_ORGS)
  {
  }

  lemma OnlyItsKeyRefuses(key: EventKey, other: EventKey)
    requires key in NEEDED
    ensures KeyOk(TWO_ORGS, Stray(key), other) <==> other != key
  {
  }

  lemma StrayIsStoppedOnlyByItsKey(key: EventKey)
    requires key in NEEDED
    ensures CoreConsistent(TWO_ORGS) && KeysOk(TWO_ORGS, Stray(key), ALL - {key}) && !InOneLineage(TWO_ORGS, Stray(key))
  {
    TwoOrgsAreConsistent();
    forall other | other in ALL - {key}
      ensures KeyOk(TWO_ORGS, Stray(key), other)
    {
      OnlyItsKeyRefuses(key, other);
    }
    OnlyItsKeyRefuses(key, key);
    StrayFrom(TWO_ORGS, Stray(key), key);
  }

  lemma StrayFrom(db: Db, e: Event, key: EventKey)
    requires CoreConsistent(db) && key in ALL && !KeyOk(db, e, key)
    ensures !InOneLineage(db, e)
  {
    KeysMeanOneLineage(db, e);
  }

  /** In every reachable database, events that pass the given keys lie in one lineage. */
  ghost predicate Sufficient(keys: set<EventKey>) {
    forall statements: seq<Db>, e :: KeysOk(ApplyAll(EMPTY, statements), e, keys) ==>
        InOneLineage(ApplyAll(EMPTY, statements), e)
  }

  lemma TwoOrgsAreReachable()
    ensures ApplyAll(EMPTY, [TWO_ORGS]) == TWO_ORGS
  {
    TwoOrgsAreConsistent();
    assert [TWO_ORGS][..0] == [] && ApplyAll(EMPTY, []) == EMPTY;
    assert Accepted(EMPTY, TWO_ORGS);
  }

  /**
   * A choice of the seven keys keeps events in one lineage exactly when it contains the six of
   * at most three columns.
   */
  lemma ExactlySixKeysAreNeeded(keys: set<EventKey>)
    requires keys <= ALL
    ensures Sufficient(keys) <==> NEEDED <= keys
  {
    if NEEDED <= keys {
      forall statements: seq<Db>, e | KeysOk(ApplyAll(EMPTY, statements), e, keys)
        ensures InOneLineage(ApplyAll(EMPTY, statements), e)
      {
        ReachableIsConsistent(statements);
        NeededKeysGiveLineage(ApplyAll(EMPTY, statements), e);
      }
    } else {
      var key :| key in NEEDED && key !in keys;
      TwoOrgsAreReachable();
      StrayIsStoppedOnlyByItsKey(key);
      assert KeysOk(ApplyAll(EMPTY, [TWO_ORGS]), Stray(key), keys);
    }
  }

  // ---- issue loops ----

  predicate Joins(e: Edge, x: LoopKey, y: LoopKey) {
    || ((e.org, e.source) == x && (e.org, e.related) == y)
    || ((e.org, e.related) == x && (e.org, e.source) == y)
  }

  ghost predicate Linked(db: Db, x: LoopKey, y: LoopKey) {
    exists e :: e in db.edges && Joins(e, x, y)
  }

  /** Loops one after the other along causal edges, in either direction. */
  ghost predicate Path(db: Db, path: seq<LoopKey>) {
    forall i :: 0 <= i < |path| - 1 ==> Linked(db, path[i], path[i + 1])
  }

  lemma {:induction false} PathStaysInOneProject(db: Db, path: seq<LoopKey>, i: nat)
    requires Consistent(db) && |path| >= 2 && Path(db, path) && i < |path|
    ensures path[0] in db.loops && path[i] in db.loops
    ensures path[i].0 == path[0].0 && db.loops[path[i]] == db.loops[path[0]]
  {
    var from := if i == 0 then 0 else i - 1;
    if i > 0 {
      PathStaysInOneProject(db, path, i - 1);
    }
    assert Linked(db, path[from], path[from + 1]);
    var e :| e in db.edges && Joins(e, path[from], path[from + 1]);
    assert EdgeOk(db, e);
  }

  /** In every reachable database causal paths of any length stay in one org and one project. */
  lemma IssueLoopPathsStayInOneProject(statements: seq<Db>, path: seq<LoopKey>, i: nat)
    requires |path| >= 2 && Path(ApplyAll(EMPTY, statements), path) && i < |path|
    ensures var db := ApplyAll(EMPTY, statements);
            && path[0] in db.loops && path[i] in db.loops
            && path[i].0 == path[0].0 && db.loops[path[i]] == db.loops[path[0]]
            && HasProject(db, path[i].0, db.loops[path[i]])
  {
    var db := ApplyAll(EMPTY, statements);
    ReachableIsConsistent(statements);
    PathStaysInOneProject(db, path, i);
    assert LoopOk(db, path[i], db.loops[path[i]]);
  }

  /** In every reachable database a finding shares its loop's org and project. */
  lemma FindingsShareTheirLoopsProject(statements: seq<Db>, k: LoopKey)
    requires k in ApplyAll(EMPTY, statements).findings
    ensures var db := ApplyAll(EMPTY, statements);
            var f := db.findings[k];
            (k.0, f.issueLoop) in db.loops && db.loops[(k.0, f.issueLoop)] == f.project
            && HasProject(db, k.0, f.project)
  {
    var db := ApplyAll(EMPTY, statements);
    ReachableIsConsistent(statements);
    assert FindingOk(db, k.0, db.findings[k]);
  }
}
