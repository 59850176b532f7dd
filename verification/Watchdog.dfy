/**
 * The progress watchdog of the plane-split smoke run: poll the job until it is
 * terminal, or until status and heartbeat were both flat over a whole window after
 * the claim. Observations are the input; waiting between polls is left out.
 */
module Watchdog {
  import opened Base

  const WINDOW: nat := 20

  datatype Observation = Observation(status: Option<string>, jobOrg: Option<string>, heartbeat: Option<int>)

  /** What the row-level-security probe returns once the job is terminal. */
  datatype Visibility = Visibility(scopedRows: nat, emptyScopeRows: nat, runStatus: Option<string>)

  datatype Verdict = Passed | OrgMismatch | NotVisible | NotDenied | RunStuck

  datatype Outcome = Polling | Finished(poll: nat, verdict: Verdict) | Stalled(poll: nat)

  predicate TerminalStatus(s: string) {
    s == "done" || s == "failed" || s == "cancelled" || s == "dead_letter"
  }

  predicate Terminal(o: Observation) {
    o.status.Some? && TerminalStatus(o.status.value)
  }

  /** A status other than `queued`: the worker has the job. */
  predicate Claims(o: Observation) {
    o.status.Some? && o.status.value != "queued"
  }

  function Shown(o: Observation): string {
    if o.status.Some? then o.status.value else "<undefined>"
  }

  // ---- the specification: a predicate over the whole history ----

  /** Observations from the claim on. */
  function SinceClaim(obs: seq<Observation>): seq<Observation> {
    if obs == [] then [] else if Claims(obs[0]) then obs else SinceClaim(obs[1..])
  }

  function Last<T>(xs: seq<T>, n: nat): seq<T> {
    if |xs| <= n then xs else xs[|xs| - n..]
  }

  /** Status and heartbeat both unchanged over a whole window of observations made since the claim. */
  ghost predicate Flat(obs: seq<Observation>) {
    var since := SinceClaim(obs);
    && |since| >= WINDOW
    && forall i, j :: |since| - WINDOW <= i < j < |since| ==>
         Shown(since[i]) == Shown(since[j]) && since[i].heartbeat == since[j].heartbeat
  }

  /** The loop ends at poll i: the job is terminal there, or the history up to there is flat. */
  ghost predicate EndsAt(obs: seq<Observation>, i: nat) {
    i < |obs| && (Terminal(obs[i]) || Flat(obs[..i + 1]))
  }

  // ---- the two windows ----

  function Push<T>(window: seq<T>, x: T): seq<T> {
    if |window| + 1 > WINDOW then (window + [x])[1..] else window + [x]
  }

  lemma PushKeepsLast<T>(xs: seq<T>, x: T)
    ensures Push(Last(xs, WINDOW), x) == Last(xs + [x], WINDOW)
  {
  }

  function Statuses(obs: seq<Observation>): (r: seq<string>)
    ensures |r| == |obs|
  {
    seq(|obs|, i requires 0 <= i < |obs| => Shown(obs[i]))
  }

  function Heartbeats(obs: seq<Observation>): (r: seq<Option<int>>)
    ensures |r| == |obs|
  {
    seq(|obs|, i requires 0 <= i < |obs| => obs[i].heartbeat)
  }

  /** `new Set(xs).size === 1`, for a non-empty window. */
  predicate AllEqual<T(==)>(xs: seq<T>) {
    forall i :: 0 <= i < |xs| ==> xs[i] == xs[0]
  }

  lemma {:induction false} SinceClaimSnoc(obs: seq<Observation>, o: Observation)
    ensures SinceClaim(obs + [o])
         == if SinceClaim(obs) != [] || Claims(o) then SinceClaim(obs) + [o] else []
  {
    if obs == [] {
      assert obs + [o] == [o];
      assert [o][1..] == [];
    } else if Claims(obs[0]) {
    } else {
      assert (obs + [o])[1..] == obs[1..] + [o];
      SinceClaimSnoc(obs[1..], o);
    }
  }

  lemma FlatWindows(since: seq<Observation>)
    requires |since| >= WINDOW
    ensures (AllEqual(Last(Statuses(since), WINDOW)) && AllEqual(Last(Heartbeats(since), WINDOW)))
            <==> forall i, j :: |since| - WINDOW <= i < j < |since| ==>
                   Shown(since[i]) == Shown(since[j]) && since[i].heartbeat == since[j].heartbeat
  {
    var n := |since| - WINDOW;
    var s, h := Last(Statuses(since), WINDOW), Last(Heartbeats(since), WINDOW);
    assert forall i :: 0 <= i < WINDOW ==> s[i] == Shown(since[n + i]) && h[i] == since[n + i].heartbeat;
    if AllEqual(s) && AllEqual(h) {
      forall i, j | n <= i < j < |since|
        ensures Shown(since[i]) == Shown(since[j]) && since[i].heartbeat == since[j].heartbeat
      {
        assert s[i - n] == s[0] && s[j - n] == s[0] && h[i - n] == h[0] && h[j - n] == h[0];
      }
    }
    if forall i, j :: n <= i < j < |since| ==>
        Shown(since[i]) == Shown(since[j]) && since[i].heartbeat == since[j].heartbeat {
      forall i | 0 <= i < WINDOW
        ensures s[i] == s[0] && h[i] == h[0]
      {
        if i > 0 {
          assert Shown(since[n]) == Shown(since[n + i]) && since[n].heartbeat == since[n + i].heartbeat;
        }
      }
    }
  }

  /** The two windows as the history determines them. */
  ghost predicate Windows(obs: seq<Observation>, statuses: seq<string>, heartbeats: seq<Option<int>>) {
    && statuses == Last(Statuses(SinceClaim(obs)), WINDOW)
    && heartbeats == Last(Heartbeats(SinceClaim(obs)), WINDOW)
  }

  predicate Stalls(statuses: seq<string>, heartbeats: seq<Option<int>>) {
    |statuses| == WINDOW && AllEqual(statuses) && AllEqual(heartbeats)
  }

  lemma EndsExactlyWhenWindowsStall(obs: seq<Observation>, poll: nat, statuses: seq<string>,
      heartbeats: seq<Option<int>>)
    requires poll < |obs| && Windows(obs[..poll + 1], statuses, heartbeats)
    ensures EndsAt(obs, poll) <==> Terminal(obs[poll]) || Stalls(statuses, heartbeats)
  {
    var since := SinceClaim(obs[..poll + 1]);
    if |since| >= WINDOW {
      FlatWindows(since);
    }
  }

  lemma WindowsSnoc(obs: seq<Observation>, job: Observation, statuses: seq<string>, heartbeats: seq<Option<int>>)
    requires Windows(obs, statuses, heartbeats)
    ensures var claimed := SinceClaim(obs) != [] || Claims(job);
            && (SinceClaim(obs + [job]) != [] <==> claimed)
            && if claimed then Windows(obs + [job], Push(statuses, Shown(job)), Push(heartbeats, job.heartbeat))
               else Windows(obs + [job], statuses, heartbeats)
  {
    SinceClaimSnoc(obs, job);
    var before := SinceClaim(obs);
    if before != [] || Claims(job) {
      assert Statuses(before + [job]) == Statuses(before) + [Shown(job)];
      assert Heartbeats(before + [job]) == Heartbeats(before) + [job.heartbeat];
      PushKeepsLast(Statuses(before), Shown(job));
      PushKeepsLast(Heartbeats(before), job.heartbeat);
    }
  }

  lemma WindowsNext(obs: seq<Observation>, poll: nat, statuses: seq<string>, heartbeats: seq<Option<int>>)
    requires poll < |obs| && Windows(obs[..poll], statuses, heartbeats)
    ensures var job := obs[poll];
            var claimed := SinceClaim(obs[..poll]) != [] || Claims(job);
            && (SinceClaim(obs[..poll + 1]) != [] <==> claimed)
            && (claimed ==> Windows(obs[..poll + 1], Push(statuses, Shown(job)), Push(heartbeats, job.heartbeat)))
            && (!claimed ==> Windows(obs[..poll + 1], statuses, heartbeats))
  {
    WindowsSnoc(obs[..poll], obs[poll], statuses, heartbeats);
    assert obs[..poll + 1] == obs[..poll] + [obs[poll]];
  }

  /** Before the claim nothing is flat. */
  lemma UnclaimedGoesOn(obs: seq<Observation>, poll: nat)
    requires poll < |obs| && SinceClaim(obs[..poll + 1]) == [] && !Terminal(obs[poll])
    ensures !EndsAt(obs, poll)
  {
  }

  /**
   * A stall, said directly: some observation had left the queue, and the last 20, all
   * from then on, agree in status and heartbeat.
   */
  ghost predicate Motionless(obs: seq<Observation>, claim: nat) {
    && claim + 20 <= |obs| && obs[claim].status.Some? && obs[claim].status.value != "queued"
    && forall i, j :: |obs| - 20 <= i < j < |obs| ==>
         && obs[i].heartbeat == obs[j].heartbeat
         && (obs[i].status.Some? && obs[j].status.Some? ==> obs[i].status == obs[j].status)
         && (obs[i].status.None? ==> obs[j].status in {None, Some("<undefined>")})
         && (obs[j].status.None? ==> obs[i].status in {None, Some("<undefined>")})
  }

  ghost predicate Stuck(obs: seq<Observation>) {
    exists claim :: Motionless(obs, claim)
  }

  lemma FlatIsStuck(obs: seq<Observation>)
    requires Flat(obs)
    ensures Stuck(obs)
  {
    var c := ClaimSplits(obs);
    var since := SinceClaim(obs);
    forall i, j | |obs| - 20 <= i < j < |obs|
      ensures Shown(obs[i]) == Shown(obs[j]) && obs[i].heartbeat == obs[j].heartbeat
    {
      assert since[i - c] == obs[i] && since[j - c] == obs[j];
    }
    assert Motionless(obs, c);
  }

  lemma FlatExactly(obs: seq<Observation>)
    ensures Flat(obs) <==> Stuck(obs)
  {
    if Flat(obs) {
      FlatIsStuck(obs);
    }
    if Stuck(obs) {
      var claim: nat :| Motionless(obs, claim);
      ClaimIsInSince(obs, claim);
      var since := SinceClaim(obs);
      var d := |obs| - |since|;
      forall i, j | |since| - WINDOW <= i < j < |since|
        ensures Shown(since[i]) == Shown(since[j]) && since[i].heartbeat == since[j].heartbeat
      {
        assert since[i] == obs[d + i] && since[j] == obs[d + j];
      }
    }
  }

  /** The loop ends exactly at a terminal status, or when nothing moves any more. */
  lemma EndsExactly(obs: seq<Observation>, i: nat)
    requires i < |obs|
    ensures EndsAt(obs, i) <==>
              || obs[i].status in {Some("done"), Some("failed"), Some("cancelled"), Some("dead_letter")}
              || Stuck(obs[..i + 1])
  {
    FlatExactly(obs[..i + 1]);
  }

  lemma {:induction false} ClaimIsInSince(obs: seq<Observation>, claim: nat)
    requires claim < |obs| && obs[claim].status.Some? && obs[claim].status.value != "queued"
    ensures |obs| - claim <= |SinceClaim(obs)| <= |obs| && SinceClaim(obs) == obs[|obs| - |SinceClaim(obs)|..]
  {
    if !Claims(obs[0]) {
      ClaimIsInSince(obs[1..], claim - 1);
    }
  }

  /**
   * The poll loop. After every poll both windows hold the last min(n, 20) observations
   * since the claim; the loop ends at the first poll where the job is terminal or the
   * history is flat. A terminal poll is judged, never called a stall: it passes if and
   * only if the job is the org's, its run is visible under the org's scope and not
   * under an empty one, and the run has left the queue; the first of these that fails
   * is what is reported.
   */
  method Watch(obs: seq<Observation>, org: string, visibility: Visibility) returns (out: Outcome)
    ensures match out
            case Polling => forall j :: 0 <= j < |obs| ==> !EndsAt(obs, j)
            case Finished(i, _) => i < |obs| && Terminal(obs[i]) && forall j :: 0 <= j < i ==> !EndsAt(obs, j)
            case Stalled(i) =>
              && i < |obs| && !Terminal(obs[i]) && Flat(obs[..i + 1])
              && forall j :: 0 <= j < i ==> !EndsAt(obs, j)
    ensures out.Finished? ==>
              && obs[out.poll].status.Some?
              && obs[out.poll].status.value in {"done", "failed", "cancelled", "dead_letter"}
    ensures out.Finished? ==>
              var jobOrg, v := obs[out.poll].jobOrg, visibility;
              && (out.verdict == OrgMismatch <==> jobOrg != Some(org))
              && (out.verdict == NotVisible <==> jobOrg == Some(org) && v.scopedRows == 0)
              && (out.verdict == NotDenied <==> jobOrg == Some(org) && v.scopedRows > 0 && v.emptyScopeRows > 0)
              && (out.verdict == RunStuck <==>
                    && jobOrg == Some(org) && v.scopedRows > 0 && v.emptyScopeRows == 0
                    && (v.runStatus.None? || v.runStatus.value == "queued"))
              && (out.verdict == Passed <==>
                    && jobOrg == Some(org) && v.scopedRows > 0 && v.emptyScopeRows == 0
                    && v.runStatus.Some? && v.runStatus.value != "queued")
    ensures out.Stalled? ==>
              && obs[out.poll].status !in {Some("done"), Some("failed"), Some("cancelled"), Some("dead_letter")}
              && Stuck(obs[..out.poll + 1])
  {
    var statusHistory: seq<string> := [];
    var heartbeatHistory: seq<Option<int>> := [];
    var claimed := false;
    var poll := 0;
    while poll < |obs|
      invariant poll <= |obs|
      invariant claimed == (SinceClaim(obs[..poll]) != [])
      invariant Windows(obs[..poll], statusHistory, heartbeatHistory)
      invariant forall j :: 0 <= j < poll ==> !EndsAt(obs, j)
    {
      var job := obs[poll];
      WindowsNext(obs, poll, statusHistory, heartbeatHistory);
      if !claimed && Claims(job) {
        claimed := true;
      }
      if Terminal(job) {
        if job.jobOrg != Some(org) {
          return Finished(poll, OrgMismatch);
        }
        if visibility.scopedRows < 1 {
          return Finished(poll, NotVisible);
        }
        if visibility.emptyScopeRows != 0 {
          return Finished(poll, NotDenied);
        }
        if visibility.runStatus == Some("queued") || visibility.runStatus == None {
          return Finished(poll, RunStuck);
        }
        return Finished(poll, Passed);
      }
      if claimed {
        statusHistory := statusHistory + [Shown(job)];
        if |statusHistory| > WINDOW {
          statusHistory := statusHistory[1..];
        }
        heartbeatHistory := heartbeatHistory + [job.heartbeat];
        if |heartbeatHistory| > WINDOW {
          heartbeatHistory := heartbeatHistory[1..];
        }
        EndsExactlyWhenWindowsStall(obs, poll, statusHistory, heartbeatHistory);
        if |statusHistory| == WINDOW && AllEqual(statusHistory) {
          if AllEqual(heartbeatHistory) {
            FlatExactly(obs[..poll + 1]);
            return Stalled(poll);
          }
        }
      } else {
        UnclaimedGoesOn(obs, poll);
      }
      assert !EndsAt(obs, poll);
      poll := poll + 1;
    }
    out := Polling;
  }

  // ---- the bound ----

  predicate Same(a: Observation, b: Observation) {
    Shown(a) == Shown(b) && a.heartbeat == b.heartbeat
  }

  /** How often (status, heartbeat) changes from one observation to the next. */
  function Changes(xs: seq<Observation>): nat {
    if |xs| <= 1 then 0 else Changes(xs[1..]) + if Same(xs[0], xs[1]) then 0 else 1
  }

  ghost predicate FlatRun(xs: seq<Observation>, p: nat) {
    p + WINDOW <= |xs| && forall i, j :: p <= i < j < p + WINDOW ==> Same(xs[i], xs[j])
  }

  /** Either the first n observations agree, or there is a first change among them. */
  lemma {:induction false} FirstChange(xs: seq<Observation>, n: nat) returns (j: nat)
    requires 1 <= n <= |xs|
    ensures 1 <= j <= n
    ensures forall i :: 0 <= i < j ==> Same(xs[0], xs[i])
    ensures j < n ==> Changes(xs[j..]) + 1 <= Changes(xs)
  {
    if n == 1 {
      j := 1;
    } else if !Same(xs[0], xs[1]) {
      j := 1;
    } else {
      var k := FirstChange(xs[1..], n - 1);
      j := k + 1;
      forall i | 0 <= i < j ensures Same(xs[0], xs[i]) {
        if i > 0 { assert Same(xs[1..][0], xs[1..][i - 1]); }
      }
      assert xs[1..][k..] == xs[j..];
    }
  }

  /** Pigeonhole: k changes cannot break 19(k+1)+1 observations into runs all shorter than a window. */
  lemma {:induction false} FewChangesLeaveAFlatRun(xs: seq<Observation>, k: nat) returns (p: nat)
    requires |xs| >= (WINDOW - 1) * (k + 1) + 1 && Changes(xs) <= k
    ensures FlatRun(xs, p)
    decreases k
  {
    var j := FirstChange(xs, WINDOW);
    if j == WINDOW {
      p := 0;
      forall a, b | 0 <= a < b < WINDOW ensures Same(xs[a], xs[b]) {
        assert Same(xs[0], xs[a]) && Same(xs[0], xs[b]);
      }
    } else {
      var q := FewChangesLeaveAFlatRun(xs[j..], k - 1);
      p := q + j;
      forall a, b | p <= a < b < p + WINDOW ensures Same(xs[a], xs[b]) {
        assert Same(xs[j..][a - j], xs[j..][b - j]);
      }
    }
  }

  lemma {:induction false} ClaimSplits(obs: seq<Observation>) returns (c: nat)
    requires SinceClaim(obs) != []
    ensures c < |obs| && Claims(obs[c]) && SinceClaim(obs) == obs[c..]
    ensures forall n :: c < n <= |obs| ==> SinceClaim(obs[..n]) == obs[c..n]
  {
    if Claims(obs[0]) {
      c := 0;
    } else {
      var d := ClaimSplits(obs[1..]);
      c := d + 1;
      forall n | c < n <= |obs| ensures SinceClaim(obs[..n]) == obs[c..n] {
        assert obs[..n][1..] == obs[1..][..n - 1];
      }
    }
  }

  /**
   * If status and heartbeat change at most k times since the claim, the loop has ended
   * within 19(k+1)+1 polls since the claim.
   */
  lemma WatchdogEndsInTime(obs: seq<Observation>, k: nat)
    requires |SinceClaim(obs)| >= (WINDOW - 1) * (k + 1) + 1 && Changes(SinceClaim(obs)) <= k
    ensures exists i :: EndsAt(obs, i) && |SinceClaim(obs[..i + 1])| <= (WINDOW - 1) * (k + 1) + 1
  {
    var bound := (WINDOW - 1) * (k + 1) + 1;
    var c := ClaimSplits(obs);
    var since := SinceClaim(obs);
    PrefixChanges(since, bound);
    var p := FewChangesLeaveAFlatRun(since[..bound], k);
    var i := c + p + WINDOW - 1;
    assert SinceClaim(obs[..i + 1]) == obs[c..i + 1];
    var seen := obs[c..i + 1];
    forall a, b | p <= a < b < p + WINDOW
      ensures Shown(seen[a]) == Shown(seen[b]) && seen[a].heartbeat == seen[b].heartbeat
    {
      assert seen[a] == since[..bound][a] && seen[b] == since[..bound][b];
      assert Same(since[..bound][a], since[..bound][b]);
    }
    assert EndsAt(obs, i);
  }

  lemma {:induction false} PrefixChanges(xs: seq<Observation>, n: nat)
    requires n <= |xs|
    ensures Changes(xs[..n]) <= Changes(xs)
  {
    if n > 1 {
      assert xs[..n][1..] == xs[1..][..n - 1];
      PrefixChanges(xs[1..], n - 1);
    }
  }

  // ---- the bound is tight ----

  /** A running job whose heartbeat moves once every 19 polls. */
  function Beating(from: nat, n: nat): (r: seq<Observation>)
    ensures |r| == n
  {
    seq(n, i => Observation(Some("running"), None, Some((from + i) / (WINDOW - 1))))
  }

  lemma {:induction false} BeatingChanges(from: nat, n: nat)
    requires n >= 1
    ensures Changes(Beating(from, n)) == (from + n - 1) / (WINDOW - 1) - from / (WINDOW - 1)
    decreases n
  {
    if n > 1 {
      var xs := Beating(from, n);
      assert xs[1..] == Beating(from + 1, n - 1);
      BeatingChanges(from + 1, n - 1);
      assert Changes(xs) == Changes(xs[1..]) + if Same(xs[0], xs[1]) then 0 else 1;
      assert Same(xs[0], xs[1]) <==> from / (WINDOW - 1) == (from + 1) / (WINDOW - 1);
      assert (from + 1) / (WINDOW - 1) - from / (WINDOW - 1) <= 1;
    }
  }

  /** For every k there is a history with k changes that is still polling after 19(k+1) polls. */
  lemma BoundIsTight(k: nat)
    ensures var obs := Beating(0, (WINDOW - 1) * (k + 1));
            && SinceClaim(obs) == obs && |obs| == (WINDOW - 1) * (k + 1) && Changes(obs) == k
            && forall i :: !EndsAt(obs, i)
  {
    var n := (WINDOW - 1) * (k + 1);
    var obs := Beating(0, n);
    BeatingChanges(0, n);
    assert Claims(obs[0]);
    forall i | 0 <= i < |obs|
      ensures !EndsAt(obs, i)
    {
      var seen := obs[..i + 1];
      assert Claims(seen[0]) && SinceClaim(seen) == seen;
      if |seen| >= WINDOW {
        var a, b := |seen| - WINDOW, |seen| - 1;
        assert seen[a].heartbeat != seen[b].heartbeat;
      }
    }
  }
}
