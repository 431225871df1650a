/** Whole runs of ticks over the cluster's issue Workloads. */
module RetryRuns {
  import opened Outcomes
  import opened Slug
  import opened Workloads
  import opened Build
  import opened Retry
  import opened RetryLaws
  import C = Claims
  import I = InfraPass
  import Infra

  /** What Foreman reports about a Workload; it never writes names, annotations or specs. */
  datatype Status = Status(phase: Phase, executorError: bool, allResolved: bool)

  /** What happens from the end of one retry pass to the end of the next. */
  datatype Tick = Tick(
    removed: set<string>,
    status: map<string, Status>,
    claimed: Objects,
    cfg: RetryConfig,
    order: seq<string>,
    answers: seq<Answers>,
    load: Load)

  function WithStatus(w: Workload, s: Status): Workload {
    w.(phase := s.phase, executorError := s.executorError, allResolved := s.allResolved)
  }

  function Reported(objects: Objects, status: map<string, Status>): Objects {
    map n | n in objects :: if n in status then WithStatus(objects[n], status[n]) else objects[n]
  }

  predicate IsFresh(objects: Objects, tick: Tick, n: string) {
    n in tick.claimed && (n !in objects || n in tick.removed)
  }

  /** The cluster when the pass lists it. */
  function Listed(objects: Objects, tick: Tick): Objects {
    var kept := Reported(objects - tick.removed, tick.status);
    map n | n in kept.Keys + tick.claimed.Keys :: if n in kept then kept[n] else tick.claimed[n]
  }

  function Listing(objects: Objects, order: seq<string>): seq<Workload>
    requires forall i :: 0 <= i < |order| ==> order[i] in objects
  {
    seq(|order|, i requires 0 <= i < |order| => objects[order[i]])
  }

  /** A Workload as a claim creates it. */
  predicate FreshlyClaimed(w: Workload) {
    IssueNamed(w) && AttemptOf(w) == 1 && InfraAttemptOf(w) == 1 && OverwritesOnlyWhatItRevises(w)
  }

  /** What the claim pass adds to the cluster is fresh in this sense, so the runs below start their lineages where claims do. */
  lemma ClaimedIsFresh(cfg: C.ClaimConfig, w: Workload)
    requires C.IsClaimed(cfg, w)
    ensures FreshlyClaimed(w)
  {
    var item, coder :| w == C.ClaimManifest(cfg, item, coder);
    var revision := C.RevisionCoder(item.lane, cfg.revisionAgents, cfg.routing.roles);
    BuiltWorkloadReadsBack(item, 1, 1, coder, "", revision, "", cfg.render);
    BuiltWorkloadIsSafe(item, 1, 1, coder, "", revision, "", cfg.render);
  }

  /** So is what a redrive adds: the lineage starts again with both budgets full. */
  lemma RedrivenIsFresh(cfg: I.InfraConfig, issue: Infra.Issue)
    ensures FreshlyClaimed(I.RedriveManifest(cfg, issue))
  {
    var item := I.RedriveItem(cfg, issue);
    var branch := BranchName(item.repo, item.issueNumber);
    BuiltWorkloadReadsBack(item, 1, 1, I.RedriveCoder(cfg, issue), "", "", branch, cfg.render);
    BuiltWorkloadIsSafe(item, 1, 1, I.RedriveCoder(cfg, issue), "", "", branch, cfg.render);
  }

  ghost predicate LegalTick(objects: Objects, tick: Tick, maxAttempts: int, infraMax: int) {
    && tick.cfg.maxAttempts == maxAttempts && tick.cfg.infraMaxAttempts == infraMax
    && WellNamed(tick.claimed) && (forall n :: n in tick.claimed ==> FreshlyClaimed(tick.claimed[n]))
    && |tick.answers| == |tick.order|
    && (forall i, j :: 0 <= i < j < |tick.order| ==> tick.order[i] != tick.order[j])
    && (forall i :: 0 <= i < |tick.order| ==>
      tick.order[i] in Listed(objects, tick) && Listed(objects, tick)[tick.order[i]].phase == Failed)
  }

  /** What every cluster the bridge runs against satisfies. */
  ghost predicate Sane(objects: Objects) {
    && WellNamed(objects)
    && forall n :: n in objects ==> IssueNamed(objects[n]) && OverwritesOnlyWhatItRevises(objects[n])
  }

  function RunTick(objects: Objects, tick: Tick): PassState
    requires |tick.answers| == |tick.order|
    requires forall i :: 0 <= i < |tick.order| ==> tick.order[i] in Listed(objects, tick)
  {
    var shown := Listed(objects, tick);
    Pass(tick.cfg, Listing(shown, tick.order), tick.answers, PassState(shown, tick.load, [], false))
  }

  /** The pass put something else under a name it found taken. */
  predicate RecreatedIn(before: Objects, after: Objects, n: string) {
    n in before && n in after && before[n] != after[n]
  }

  ghost predicate TickLeads(objects: Objects, tick: Tick, after: Objects, maxAttempts: int, infraMax: int) {
    LegalTick(objects, tick, maxAttempts, infraMax) && after == RunTick(objects, tick).objects
  }

  /** states[k] is the cluster after k ticks. */
  ghost predicate IsRun(states: seq<Objects>, ticks: seq<Tick>, maxAttempts: int, infraMax: int) {
    && |states| == |ticks| + 1
    && Sane(states[0])
    && forall k :: 0 < k <= |ticks| ==> Links(states, ticks, maxAttempts, infraMax, k)
  }

  ghost predicate Links(states: seq<Objects>, ticks: seq<Tick>, maxAttempts: int, infraMax: int, k: nat)
    requires 0 < k <= |ticks| < |states|
  {
    TickLeads(states[k - 1], ticks[k - 1], states[k], maxAttempts, infraMax)
  }

  /** How often the passes of the first k ticks recreated n. */
  function Recreations(states: seq<Objects>, ticks: seq<Tick>, n: string, k: nat): nat
    requires k <= |ticks| < |states|
  {
    if k == 0 then 0
    else
      var bit := if RecreatedIn(Listed(states[k - 1], ticks[k - 1]), states[k], n) then 1 else 0;
      Recreations(states, ticks, n, k - 1) + bit
  }

  /** How often n was claimed anew during the first k ticks. */
  function Claims(states: seq<Objects>, ticks: seq<Tick>, n: string, k: nat): nat
    requires k <= |ticks| < |states|
  {
    if k == 0 then 0
    else Claims(states, ticks, n, k - 1) + (if IsFresh(states[k - 1], ticks[k - 1], n) then 1 else 0)
  }

  function BudgetAt(maxAttempts: int, infraMax: int, objects: Objects, n: string): nat {
    if n in objects then Budget(maxAttempts, infraMax, objects[n]) else 0
  }

  function FreshBudget(maxAttempts: int, infraMax: int): nat {
    Above(maxAttempts, 1) + Above(infraMax, 1)
  }

  lemma StatusKeepsIdentity(w: Workload, s: Status)
    ensures var v := WithStatus(w, s);
      && (IssueNamed(v) <==> IssueNamed(w)) && SameIssue(w, v)
      && (OverwritesOnlyWhatItRevises(v) <==> OverwritesOnlyWhatItRevises(w))
      && AttemptOf(v) == AttemptOf(w) && InfraAttemptOf(v) == InfraAttemptOf(w)
  {
  }

  /** What a name stands for when the pass lists it. */
  lemma ListedEntry(objects: Objects, tick: Tick, maxAttempts: int, infraMax: int, n: string)
    requires Sane(objects) && LegalTick(objects, tick, maxAttempts, infraMax) && n in Listed(objects, tick)
    ensures var w := Listed(objects, tick)[n];
      && w.name == n && IssueNamed(w) && OverwritesOnlyWhatItRevises(w)
      && (!IsFresh(objects, tick, n) ==> n in objects && SameIssue(objects[n], w))
      && Budget(maxAttempts, infraMax, w) ==
        if IsFresh(objects, tick, n) then FreshBudget(maxAttempts, infraMax) else BudgetAt(maxAttempts, infraMax, objects, n)
  {
    if IsFresh(objects, tick, n) {
      assert FreshlyClaimed(tick.claimed[n]);
    } else if n in tick.status {
      StatusKeepsIdentity(objects[n], tick.status[n]);
    }
  }

  lemma ListingShows(objects: Objects, tick: Tick, maxAttempts: int, infraMax: int)
    requires Sane(objects) && LegalTick(objects, tick, maxAttempts, infraMax)
    ensures Shows(Listing(Listed(objects, tick), tick.order), Listed(objects, tick))
  {
    forall i | 0 <= i < |tick.order|
      ensures var w := Listed(objects, tick)[tick.order[i]]; w.name == tick.order[i] && IssueNamed(w)
    {
      ListedEntry(objects, tick, maxAttempts, infraMax, tick.order[i]);
    }
  }

  /** What a pass may do to an entry: keep it, recreate it as the same issue for at least one unit of budget, or free the name. */
  predicate Shrinks(maxAttempts: int, infraMax: int, shown: Objects, after: Objects, n: string) {
    n in after ==>
      && n in shown && SameIssue(shown[n], after[n])
      && (after[n] == shown[n] ||
        (OverwritesOnlyWhatItRevises(after[n]) && Budget(maxAttempts, infraMax, after[n]) < Budget(maxAttempts, infraMax, shown[n])))
  }

  lemma PassShrinks(cfg: RetryConfig, listed: seq<Workload>, answers: seq<Answers>, st: PassState, n: string)
    requires |answers| == |listed| && Shows(listed, st.objects)
    ensures Shrinks(cfg.maxAttempts, cfg.infraMaxAttempts, st.objects, Pass(cfg, listed, answers, st).objects, n)
  {
    if Names(listed, n) {
      var i :| 0 <= i < |listed| && listed[i].name == n;
      PassConserves(cfg, listed, answers, st, i);
    } else {
      PassFrame(cfg, listed, answers, st, n);
    }
  }

  lemma ShrinksAt(objects: Objects, tick: Tick, maxAttempts: int, infraMax: int, n: string)
    requires Sane(objects) && LegalTick(objects, tick, maxAttempts, infraMax)
    ensures Shrinks(maxAttempts, infraMax, Listed(objects, tick), RunTick(objects, tick).objects, n)
  {
    var shown := Listed(objects, tick);
    ListingShows(objects, tick, maxAttempts, infraMax);
    PassShrinks(tick.cfg, Listing(shown, tick.order), tick.answers, PassState(shown, tick.load, [], false), n);
  }

  /** One tick, seen at one name. */
  lemma TickAt(objects: Objects, tick: Tick, maxAttempts: int, infraMax: int, n: string)
    requires Sane(objects) && LegalTick(objects, tick, maxAttempts, infraMax)
    ensures var shown, after := Listed(objects, tick), RunTick(objects, tick).objects;
      && (n in after ==> n in shown && after[n].name == n && SameIssue(shown[n], after[n]))
      && (n in after ==> IssueNamed(after[n]) && OverwritesOnlyWhatItRevises(after[n]))
      && (if RecreatedIn(shown, after, n) then 1 else 0) + BudgetAt(maxAttempts, infraMax, after, n)
        <= BudgetAt(maxAttempts, infraMax, shown, n)
  {
    ShrinksAt(objects, tick, maxAttempts, infraMax, n);
    if n in Listed(objects, tick) {
      ListedEntry(objects, tick, maxAttempts, infraMax, n);
    }
  }

  lemma TickKeepsSane(objects: Objects, tick: Tick, after: Objects, maxAttempts: int, infraMax: int)
    requires Sane(objects) && TickLeads(objects, tick, after, maxAttempts, infraMax)
    ensures Sane(after)
  {
    forall n | n in after
      ensures after[n].name == n && IssueNamed(after[n]) && OverwritesOnlyWhatItRevises(after[n])
    {
      TickAt(objects, tick, maxAttempts, infraMax, n);
    }
  }

  lemma TickSpends(objects: Objects, tick: Tick, after: Objects, maxAttempts: int, infraMax: int, n: string)
    requires Sane(objects) && TickLeads(objects, tick, after, maxAttempts, infraMax)
    ensures
      (if RecreatedIn(Listed(objects, tick), after, n) then 1 else 0) + BudgetAt(maxAttempts, infraMax, after, n)
      <= BudgetAt(maxAttempts, infraMax, objects, n)
        + (if IsFresh(objects, tick, n) then FreshBudget(maxAttempts, infraMax) else 0)
  {
    TickAt(objects, tick, maxAttempts, infraMax, n);
    if n in Listed(objects, tick) {
      ListedEntry(objects, tick, maxAttempts, infraMax, n);
    }
  }

  lemma RunLink(states: seq<Objects>, ticks: seq<Tick>, maxAttempts: int, infraMax: int, k: nat)
    requires IsRun(states, ticks, maxAttempts, infraMax) && 0 < k <= |ticks|
    ensures TickLeads(states[k - 1], ticks[k - 1], states[k], maxAttempts, infraMax)
  {
    assert Links(states, ticks, maxAttempts, infraMax, k);
  }

  lemma {:induction false} RunKeepsSane(states: seq<Objects>, ticks: seq<Tick>, maxAttempts: int, infraMax: int, k: nat)
    requires IsRun(states, ticks, maxAttempts, infraMax) && k <= |ticks|
    ensures Sane(states[k])
  {
    if k > 0 {
      RunKeepsSane(states, ticks, maxAttempts, infraMax, k - 1);
      RunLink(states, ticks, maxAttempts, infraMax, k);
      TickKeepsSane(states[k - 1], ticks[k - 1], states[k], maxAttempts, infraMax);
    }
  }

  lemma RunReaches(states: seq<Objects>, ticks: seq<Tick>, maxAttempts: int, infraMax: int, k: nat)
    requires IsRun(states, ticks, maxAttempts, infraMax) && 0 < k <= |ticks|
    ensures Sane(states[k - 1]) && TickLeads(states[k - 1], ticks[k - 1], states[k], maxAttempts, infraMax)
  {
    RunKeepsSane(states, ticks, maxAttempts, infraMax, k - 1);
    RunLink(states, ticks, maxAttempts, infraMax, k);
  }

  lemma TickCounts(states: seq<Objects>, ticks: seq<Tick>, maxAttempts: int, infraMax: int, n: string, k: nat)
    requires IsRun(states, ticks, maxAttempts, infraMax) && 0 < k <= |ticks|
    ensures (if RecreatedIn(Listed(states[k - 1], ticks[k - 1]), states[k], n) then 1 else 0)
      + BudgetAt(maxAttempts, infraMax, states[k], n)
      <= BudgetAt(maxAttempts, infraMax, states[k - 1], n)
        + (if IsFresh(states[k - 1], ticks[k - 1], n) then FreshBudget(maxAttempts, infraMax) else 0)
  {
    RunReaches(states, ticks, maxAttempts, infraMax, k);
    TickSpends(states[k - 1], ticks[k - 1], states[k], maxAttempts, infraMax, n);
  }

  /** Over any run, a name is recreated at most its remaining budget plus (M-1)+(I-1) for every fresh claim of it. */
  lemma {:induction false} RunStaysInBudget(
    states: seq<Objects>, ticks: seq<Tick>, maxAttempts: int, infraMax: int, n: string, k: nat)
    requires IsRun(states, ticks, maxAttempts, infraMax) && k <= |ticks|
    ensures Recreations(states, ticks, n, k) + BudgetAt(maxAttempts, infraMax, states[k], n)
      <= BudgetAt(maxAttempts, infraMax, states[0], n)
        + Claims(states, ticks, n, k) * FreshBudget(maxAttempts, infraMax)
  {
    if k > 0 {
      RunStaysInBudget(states, ticks, maxAttempts, infraMax, n, k - 1);
      TickCounts(states, ticks, maxAttempts, infraMax, n, k);
      var bit := if IsFresh(states[k - 1], ticks[k - 1], n) then 1 else 0;
      Distribute(Claims(states, ticks, n, k - 1), bit, FreshBudget(maxAttempts, infraMax));
    }
  }

  lemma Distribute(x: nat, y: nat, z: nat)
    ensures (x + y) * z == x * z + y * z
  {
  }

  /** The name is neither freed nor claimed anew during the first k ticks. */
  ghost predicate Survives(states: seq<Objects>, ticks: seq<Tick>, n: string, k: nat)
    requires k <= |ticks| < |states|
  {
    forall i :: 0 <= i <= k ==> n in states[i] && (i < k ==> !IsFresh(states[i], ticks[i], n))
  }

  lemma TickKeepsIdentity(objects: Objects, tick: Tick, after: Objects, maxAttempts: int, infraMax: int, n: string)
    requires Sane(objects) && TickLeads(objects, tick, after, maxAttempts, infraMax)
    requires n in objects && n in after && !IsFresh(objects, tick, n)
    ensures SameIssue(objects[n], after[n]) && OverwritesOnlyWhatItRevises(after[n])
  {
    TickAt(objects, tick, maxAttempts, infraMax, n);
    ListedEntry(objects, tick, maxAttempts, infraMax, n);
  }

  lemma RunKeepsIdentity(states: seq<Objects>, ticks: seq<Tick>, maxAttempts: int, infraMax: int, n: string, k: nat)
    requires IsRun(states, ticks, maxAttempts, infraMax) && 0 < k <= |ticks|
    requires n in states[k - 1] && n in states[k] && !IsFresh(states[k - 1], ticks[k - 1], n)
    ensures SameIssue(states[k - 1][n], states[k][n]) && OverwritesOnlyWhatItRevises(states[k][n])
  {
    RunReaches(states, ticks, maxAttempts, infraMax, k);
    TickKeepsIdentity(states[k - 1], ticks[k - 1], states[k], maxAttempts, infraMax, n);
  }

  lemma SameIssueTransitive(u: Workload, v: Workload, w: Workload)
    requires SameIssue(u, v) && SameIssue(v, w)
    ensures SameIssue(u, w)
  {
  }

  /** Over any number of retries a lineage keeps its name, branch, repo, issue number and intent, and stays safe to push. */
  lemma {:induction false} LineageKeepsIdentity(
    states: seq<Objects>, ticks: seq<Tick>, maxAttempts: int, infraMax: int, n: string, k: nat)
    requires IsRun(states, ticks, maxAttempts, infraMax) && k <= |ticks|
    requires Survives(states, ticks, n, k)
    ensures SameIssue(states[0][n], states[k][n])
    ensures k > 0 ==> OverwritesOnlyWhatItRevises(states[k][n])
  {
    if k > 0 {
      LineageKeepsIdentity(states, ticks, maxAttempts, infraMax, n, k - 1);
      RunKeepsIdentity(states, ticks, maxAttempts, infraMax, n, k);
      SameIssueTransitive(states[0][n], states[k - 1][n], states[k][n]);
    }
  }
}
