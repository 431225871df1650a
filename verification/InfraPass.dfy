/** One pass over the issues parked for a broken model: probe every model once, redrive what is healthy, count the rest. */
module InfraPass {
  import opened Outcomes
  import opened Slug
  import opened Workloads
  import opened Coders
  import opened Build
  import opened Infra

  datatype InfraConfig = InfraConfig(maxFailures: int, lanes: seq<string>, routing: Routing, slots: Slots, render: Render)

  /** What the world answers while one parked issue is handled. */
  datatype InfraAnswers = InfraAnswers(
    create: CreateReply, status: Reply, unlabel: Reply, cleared: LabelReplies, park: Reply, marked: bool, recorded: LabelReplies)

  const NEEDS_HUMAN := "needs-human"

  datatype InfraTag = Redriven(model: string) | RedriveFailed(model: string) | HandedToHuman(model: string) | StillUnhealthy(count: int)

  // ----- What happens to the issue's labels

  /** `clear_infra_marker` takes off the markers the issue was listed with. */
  function Cleared(issue: Issue, labels: seq<string>, a: InfraAnswers): seq<string> {
    Exchanged(labels, MarkerLabels(issue.labels), [], a.cleared)
  }

  predicate ClearOk(issue: Issue, a: InfraAnswers) {
    ExchangeOk(MarkerLabels(issue.labels), [], a.cleared)
  }

  /** After a redrive whose Workload was stored: the human marker goes first, the infra markers only when that worked. */
  function RedrivenLabels(issue: Issue, a: InfraAnswers): seq<string> {
    var unmarked := if a.status != Raises && a.unlabel == Yes then Without(issue.labels, NEEDS_HUMAN) else issue.labels;
    if a.status == Yes && a.unlabel == Yes then Cleared(issue, unmarked, a) else unmarked
  }

  /** After a park that reported success: the human marker may land, and the infra markers go. */
  function ParkedLabels(issue: Issue, a: InfraAnswers): seq<string> {
    if a.park == Yes then Cleared(issue, if a.marked then With(issue.labels, NEEDS_HUMAN) else issue.labels, a) else issue.labels
  }

  /** `record_infra_failure`. */
  function CountedLabels(issue: Issue, a: InfraAnswers): seq<string> {
    Exchanged(issue.labels, AttemptLabels(issue.labels), RecordAdds(issue.labels, FailureCount(issue.labels) + 1), a.recorded)
  }

  // ----- Redriving one issue

  function RedriveItem(cfg: InfraConfig, issue: Issue): ClaimedItem {
    var lane := if issue.lane != "" then issue.lane else if cfg.lanes != [] then cfg.lanes[0] else "local";
    ClaimedItem(issue.repo, issue.number, issue.title, lane, issue.id)
  }

  function RedriveCoder(cfg: InfraConfig, issue: Issue): string {
    var item := RedriveItem(cfg, issue);
    CoderFor(item.lane, LanguageOf(item.repo, cfg.render.gateProfiles), item.repo, item.issueNumber, cfg.routing, map[], map[], {})
  }

  /** A redriven Workload always starts from the task branch, whether or not anything was ever pushed there. */
  function RedriveManifest(cfg: InfraConfig, issue: Issue): Workload {
    var item := RedriveItem(cfg, issue);
    BuildWorkload(item, 1, 1, RedriveCoder(cfg, issue), "", "", BranchName(item.repo, item.issueNumber), cfg.render)
  }

  /** The redriven Workload may overwrite the task branch without any evidence that it was pushed. */
  lemma RedriveNeedsNoEvidence(cfg: InfraConfig, issue: Issue)
    ensures var w := RedriveManifest(cfg, issue);
      && w.spec.allowOverwrite && w.spec.reviseFromBranch == Some(BranchName(issue.repo, issue.number))
      && AttemptOf(w) == 1 && InfraAttemptOf(w) == 1
  {
    var item := RedriveItem(cfg, issue);
    BuiltWorkloadReadsBack(item, 1, 1, RedriveCoder(cfg, issue), "", "", BranchName(item.repo, item.issueNumber), cfg.render);
  }

  datatype InfraEffect = InfraEffect(objects: Objects, load: Load, labels: seq<string>, tag: InfraTag)

  predicate CoderFull(cfg: InfraConfig, issue: Issue, load: Load) {
    cfg.slots != map[] && FreeSlots(RedriveCoder(cfg, issue), load, cfg.slots) <= 0
  }

  function Redrive(cfg: InfraConfig, issue: Issue, a: InfraAnswers, objects: Objects, load: Load): InfraEffect {
    var model := InfraModel(issue.labels);
    var created := AfterCreate(objects, RedriveManifest(cfg, issue), a.create);
    if CoderFull(cfg, issue, load) then InfraEffect(objects, load, issue.labels, RedriveFailed(model))
    else if a.create != Stored then InfraEffect(created, load, issue.labels, RedriveFailed(model))
    else
      var recovered := a.status == Yes && a.unlabel == Yes && ClearOk(issue, a);
      InfraEffect(created, Charge(load, RedriveCoder(cfg, issue)), RedrivenLabels(issue, a),
        if recovered then Redriven(model) else RedriveFailed(model))
  }

  /** The replies of the health probe, by model. */
  type Probe = map<string, Reply>

  predicate Identified(model: string) {
    model != "" && model != UNKNOWN
  }

  predicate Healthy(probe: Probe, model: string) {
    Identified(model) && model in probe && probe[model] == Yes
  }

  function HandleIssue(cfg: InfraConfig, probe: Probe, issue: Issue, a: InfraAnswers, objects: Objects, load: Load): InfraEffect {
    var model, count := InfraModel(issue.labels), FailureCount(issue.labels);
    if Healthy(probe, model) then Redrive(cfg, issue, a, objects, load)
    else if Parks(issue.labels, cfg.maxFailures) then InfraEffect(objects, load, ParkedLabels(issue, a), HandedToHuman(model))
    else InfraEffect(objects, load, CountedLabels(issue, a), StillUnhealthy(count + 1))
  }

  function RefOf(issue: Issue): Ref {
    Ref(issue.repo, issue.number)
  }

  type LabelTable = map<Ref, seq<string>>

  datatype InfraState = InfraState(objects: Objects, load: Load, labels: LabelTable, results: seq<InfraTag>)

  function ParkedPass(cfg: InfraConfig, probe: Probe, issues: seq<Issue>, answers: seq<InfraAnswers>, st: InfraState): InfraState
    requires |answers| == |issues|
  {
    if issues == [] then st
    else
      var n := |issues| - 1;
      var before := ParkedPass(cfg, probe, issues[..n], answers[..n], st);
      var e := HandleIssue(cfg, probe, issues[n], answers[n], before.objects, before.load);
      InfraState(e.objects, e.load, before.labels[RefOf(issues[n]) := e.labels], before.results + [e.tag])
  }

  /** Dispatch's labels, issue by issue. */
  class LabelStore {
    var labels: LabelTable

    constructor (initial: LabelTable)
      ensures labels == initial
    {
      labels := initial;
    }

    method Write(r: Ref, now: seq<string>)
      modifies this
      ensures labels == old(labels)[r := now]
    {
      labels := labels[r := now];
    }
  }

  // ----- The pass as the bridge runs it

  /** The models named by the parked issues. */
  function ModelsOf(issues: seq<Issue>): set<string> {
    set issue | issue in issues :: InfraModel(issue.labels)
  }

  /** Asks every identified model once, and the unidentified ones never. */
  method ProbeModels(models: set<string>, probe: Probe) returns (health: map<string, bool>, probed: seq<string>)
    ensures health.Keys == models && forall m :: m in models ==> (health[m] <==> Healthy(probe, m))
    ensures forall m :: m in probed <==> m in models && Identified(m)
    ensures forall i, j :: 0 <= i < j < |probed| ==> probed[i] != probed[j]
  {
    health, probed := map[], [];
    var left := models;
    while left != {}
      invariant left <= models && health.Keys == models - left
      invariant forall m :: m in health ==> (health[m] <==> Healthy(probe, m))
      invariant forall m :: m in probed <==> m in models - left && Identified(m)
      invariant forall i, j :: 0 <= i < j < |probed| ==> probed[i] != probed[j]
      decreases left
    {
      var model :| model in left;
      left := left - {model};
      if model == "" || model == UNKNOWN {
        health := health[model := false];
      } else {
        health := health[model := model in probe && probe[model] == Yes];
        probed := probed + [model];
      }
    }
  }

  method RedriveOne(cfg: InfraConfig, issue: Issue, a: InfraAnswers, cluster: Cluster, pool: CoderLoad)
    returns (now: seq<string>, tag: InfraTag)
    modifies cluster, pool
    ensures InfraEffect(cluster.objects, pool.load, now, tag) == Redrive(cfg, issue, a, old(cluster.objects), old(pool.load))
  {
    var model := InfraModel(issue.labels);
    var coder := RedriveCoder(cfg, issue);
    now := issue.labels;
    if cfg.slots != map[] && FreeSlots(coder, pool.load, cfg.slots) <= 0 {
      return now, RedriveFailed(model);
    }
    var raised := cluster.Create(RedriveManifest(cfg, issue), a.create);
    if raised {
      return now, RedriveFailed(model);
    }
    pool.Draw(coder);
    var recovered := false;
    if a.status != Raises {
      if a.unlabel == Yes {
        now := Without(now, NEEDS_HUMAN);
      }
      recovered := a.status == Yes && a.unlabel == Yes;
    }
    if recovered {
      now, recovered := ReplaceLabels(now, MarkerLabels(issue.labels), [], a.cleared);
    }
    tag := if recovered then Redriven(model) else RedriveFailed(model);
  }

  /** An unhealthy model: the count is used up and a human takes over, or it goes up by one. */
  method CountOrPark(cfg: InfraConfig, issue: Issue, a: InfraAnswers) returns (now: seq<string>, tag: InfraTag)
    ensures now == if Parks(issue.labels, cfg.maxFailures) then ParkedLabels(issue, a) else CountedLabels(issue, a)
    ensures tag == if Parks(issue.labels, cfg.maxFailures) then HandedToHuman(InfraModel(issue.labels))
      else StillUnhealthy(FailureCount(issue.labels) + 1)
  {
    var count := FailureCount(issue.labels);
    now := issue.labels;
    var ok;
    if count + 1 >= cfg.maxFailures {
      if a.park == Yes {
        if a.marked {
          now := With(now, NEEDS_HUMAN);
        }
        now, ok := ReplaceLabels(now, MarkerLabels(issue.labels), [], a.cleared);
      }
      tag := HandedToHuman(InfraModel(issue.labels));
    } else {
      now, ok := ReplaceLabels(now, AttemptLabels(issue.labels), RecordAdds(issue.labels, count + 1), a.recorded);
      tag := StillUnhealthy(count + 1);
    }
  }

  /** `reconcile_infra_parked`. */
  method ReconcileInfraParked(
    cfg: InfraConfig, probe: Probe, issues: seq<Issue>, answers: seq<InfraAnswers>,
    cluster: Cluster, pool: CoderLoad, store: LabelStore)
    returns (results: seq<InfraTag>, probed: seq<string>)
    requires |answers| == |issues|
    modifies cluster, pool, store
    ensures InfraState(cluster.objects, pool.load, store.labels, results)
      == ParkedPass(cfg, probe, issues, answers, InfraState(old(cluster.objects), old(pool.load), old(store.labels), []))
    ensures forall m :: m in probed <==> m in ModelsOf(issues) && Identified(m)
    ensures forall i, j :: 0 <= i < j < |probed| ==> probed[i] != probed[j]
  {
    ghost var start := InfraState(cluster.objects, pool.load, store.labels, []);
    var health;
    health, probed := ProbeModels(ModelsOf(issues), probe);
    results := [];
    for i := 0 to |issues|
      invariant InfraState(cluster.objects, pool.load, store.labels, results) == ParkedPass(cfg, probe, issues[..i], answers[..i], start)
    {
      var issue, a := issues[i], answers[i];
      assert issues[..i + 1][..i] == issues[..i] && answers[..i + 1][..i] == answers[..i];
      var now, tag := HandleOne(cfg, probe, issue, a, health[InfraModel(issue.labels)], cluster, pool);
      store.Write(RefOf(issue), now);
      results := results + [tag];
    }
    assert issues[..|issues|] == issues && answers[..|answers|] == answers;
  }

  method HandleOne(
    cfg: InfraConfig, ghost probe: Probe, issue: Issue, a: InfraAnswers, healthy: bool, cluster: Cluster, pool: CoderLoad)
    returns (now: seq<string>, tag: InfraTag)
    requires healthy <==> Healthy(probe, InfraModel(issue.labels))
    modifies cluster, pool
    ensures InfraEffect(cluster.objects, pool.load, now, tag)
      == HandleIssue(cfg, probe, issue, a, old(cluster.objects), old(pool.load))
  {
    if healthy {
      now, tag := RedriveOne(cfg, issue, a, cluster, pool);
    } else {
      now, tag := CountOrPark(cfg, issue, a);
    }
  }

  /** Every issue is reported, and its report says why: healthy model, count used up, or one more failure. */
  predicate Justified(cfg: InfraConfig, probe: Probe, issue: Issue, tag: InfraTag) {
    var healthy := Healthy(probe, InfraModel(issue.labels));
    && (tag.Redriven? || tag.RedriveFailed? <==> healthy)
    && (tag.HandedToHuman? <==> !healthy && Parks(issue.labels, cfg.maxFailures))
    && (tag.StillUnhealthy? ==> tag.count == FailureCount(issue.labels) + 1)
  }

  predicate AllJustified(cfg: InfraConfig, probe: Probe, issues: seq<Issue>, results: seq<InfraTag>) {
    |results| == |issues| && forall i :: 0 <= i < |issues| ==> Justified(cfg, probe, issues[i], results[i])
  }

  lemma JustifiedSnoc(cfg: InfraConfig, probe: Probe, issues: seq<Issue>, results: seq<InfraTag>, n: nat, tag: InfraTag)
    requires |issues| == n + 1 && AllJustified(cfg, probe, issues[..n], results) && Justified(cfg, probe, issues[n], tag)
    ensures AllJustified(cfg, probe, issues, results + [tag])
  {
    forall i | 0 <= i < n + 1 ensures Justified(cfg, probe, issues[i], (results + [tag])[i]) {
      if i < n {
        assert issues[..n][i] == issues[i];
      }
    }
  }

  lemma {:induction false} EveryIssueJustified(
    cfg: InfraConfig, probe: Probe, issues: seq<Issue>, answers: seq<InfraAnswers>, st: InfraState)
    requires |answers| == |issues| && st.results == []
    ensures AllJustified(cfg, probe, issues, ParkedPass(cfg, probe, issues, answers, st).results)
  {
    if issues != [] {
      var n := |issues| - 1;
      var before := ParkedPass(cfg, probe, issues[..n], answers[..n], st);
      EveryIssueJustified(cfg, probe, issues[..n], answers[..n], st);
      HandledIsJustified(cfg, probe, issues[n], answers[n], before.objects, before.load);
      JustifiedSnoc(cfg, probe, issues, before.results, n,
        HandleIssue(cfg, probe, issues[n], answers[n], before.objects, before.load).tag);
    }
  }

  lemma HandledIsJustified(cfg: InfraConfig, probe: Probe, issue: Issue, a: InfraAnswers, objects: Objects, load: Load)
    ensures var e := HandleIssue(cfg, probe, issue, a, objects, load);
      && Justified(cfg, probe, issue, e.tag)
      && (!Healthy(probe, InfraModel(issue.labels)) ==> e.objects == objects && e.load == load)
  {
  }

  /** A pass creates a Workload, or charges a coder, only for an issue whose model probed healthy in that pass. */
  lemma {:induction false} UnhealthyChangesNothing(
    cfg: InfraConfig, probe: Probe, issues: seq<Issue>, answers: seq<InfraAnswers>, st: InfraState)
    requires |answers| == |issues|
    requires forall issue :: issue in issues ==> !Healthy(probe, InfraModel(issue.labels))
    ensures var after := ParkedPass(cfg, probe, issues, answers, st); after.objects == st.objects && after.load == st.load
  {
    if issues != [] {
      var n := |issues| - 1;
      UnhealthyChangesNothing(cfg, probe, issues[..n], answers[..n], st);
      HandledIsJustified(cfg, probe, issues[n], answers[n], st.objects, st.load);
    }
  }

  // ----- The countdown over a run of passes

  /** One run of the pass, as the tick makes it. */
  datatype InfraTick = InfraTick(
    cfg: InfraConfig, probe: Probe, issues: seq<Issue>, answers: seq<InfraAnswers>, objects: Objects, load: Load)

  predicate Legal(tick: InfraTick) {
    |tick.answers| == |tick.issues|
  }

  function RunTick(tick: InfraTick, table: LabelTable): InfraState
    requires Legal(tick)
  {
    ParkedPass(tick.cfg, tick.probe, tick.issues, tick.answers, InfraState(tick.objects, tick.load, table, []))
  }

  predicate Follows(tables: seq<LabelTable>, ticks: seq<InfraTick>, k: nat)
    requires k < |ticks| < |tables|
  {
    Legal(ticks[k]) && tables[k + 1] == RunTick(ticks[k], tables[k]).labels
  }

  /** tables[k] holds the labels after k passes. */
  ghost predicate IsRun(tables: seq<LabelTable>, ticks: seq<InfraTick>, maxFailures: int) {
    && |tables| == |ticks| + 1
    && forall k :: 0 <= k < |ticks| ==> Follows(tables, ticks, k) && ticks[k].cfg.maxFailures == maxFailures
  }

  predicate OnlyAt(issues: seq<Issue>, r: Ref, i: nat) {
    i < |issues| && RefOf(issues[i]) == r && forall j :: 0 <= j < |issues| && j != i ==> RefOf(issues[j]) != r
  }

  /** The tick lists the issue once, as the table has it, and its model probes unhealthy. */
  predicate ListedAt(tick: InfraTick, table: LabelTable, r: Ref, i: nat) {
    && OnlyAt(tick.issues, r, i) && r in table && tick.issues[i].labels == table[r]
    && !Healthy(tick.probe, InfraModel(table[r]))
  }

  /** And its count can be written. */
  predicate UnhealthyAt(tick: InfraTick, table: LabelTable, r: Ref, i: nat)
    requires Legal(tick)
  {
    && ListedAt(tick, table, r, i)
    && ExchangeOk(AttemptLabels(table[r]), RecordAdds(table[r], FailureCount(table[r]) + 1), tick.answers[i].recorded)
  }

  function LabelsFrom(cfg: InfraConfig, probe: Probe, issue: Issue, a: InfraAnswers): Option<seq<string>> {
    if Healthy(probe, InfraModel(issue.labels)) then None
    else if Parks(issue.labels, cfg.maxFailures) then Some(ParkedLabels(issue, a))
    else Some(CountedLabels(issue, a))
  }

  lemma HandledLabels(cfg: InfraConfig, probe: Probe, issue: Issue, a: InfraAnswers, objects: Objects, load: Load)
    requires !Healthy(probe, InfraModel(issue.labels))
    ensures LabelsFrom(cfg, probe, issue, a) == Some(HandleIssue(cfg, probe, issue, a, objects, load).labels)
  {
  }

  lemma LabelsSnoc(cfg: InfraConfig, probe: Probe, issues: seq<Issue>, answers: seq<InfraAnswers>, st: InfraState, n: nat)
    returns (objects: Objects, load: Load)
    requires |answers| == |issues| == n + 1
    ensures ParkedPass(cfg, probe, issues, answers, st).labels == ParkedPass(cfg, probe, issues[..n], answers[..n], st).labels
      [RefOf(issues[n]) := HandleIssue(cfg, probe, issues[n], answers[n], objects, load).labels]
  {
    var before := ParkedPass(cfg, probe, issues[..n], answers[..n], st);
    objects, load := before.objects, before.load;
  }

  /** An issue listed once ends with the labels its own turn wrote. */
  lemma {:induction false} IssueLabels(
    cfg: InfraConfig, probe: Probe, issues: seq<Issue>, answers: seq<InfraAnswers>, st: InfraState, i: nat, issue: Issue, a: InfraAnswers,
    r: Ref)
    returns (labels: seq<string>)
    requires |answers| == |issues| && OnlyAt(issues, r, i) && issues[i] == issue && answers[i] == a
    requires !Healthy(probe, InfraModel(issue.labels))
    ensures var after := ParkedPass(cfg, probe, issues, answers, st);
      r in after.labels && after.labels[r] == labels && LabelsFrom(cfg, probe, issue, a) == Some(labels)
  {
    var n := |issues| - 1;
    var objects, load := LabelsSnoc(cfg, probe, issues, answers, st, n);
    if i < n {
      labels := IssueLabels(cfg, probe, issues[..n], answers[..n], st, i, issue, a, r);
      assert RefOf(issues[n]) != r;
    } else {
      labels := HandleIssue(cfg, probe, issue, a, objects, load).labels;
      HandledLabels(cfg, probe, issue, a, objects, load);
    }
  }

  /** An unhealthy issue's labels afterwards are what its own turn wrote. */
  lemma PassWritesLabels(
    cfg: InfraConfig, probe: Probe, issues: seq<Issue>, answers: seq<InfraAnswers>, st: InfraState, i: nat, r: Ref)
    requires |answers| == |issues| && OnlyAt(issues, r, i) && !Healthy(probe, InfraModel(issues[i].labels))
    ensures var after := ParkedPass(cfg, probe, issues, answers, st);
      r in after.labels && LabelsFrom(cfg, probe, issues[i], answers[i]) == Some(after.labels[r])
  {
    var _ := IssueLabels(cfg, probe, issues, answers, st, i, issues[i], answers[i], r);
  }

  /** Label writes that all work amount to recording the failure. */
  lemma CountedIsRecorded(issue: Issue, a: InfraAnswers)
    requires ExchangeOk(AttemptLabels(issue.labels), RecordAdds(issue.labels, FailureCount(issue.labels) + 1), a.recorded)
    ensures RecordsFailure(issue.labels, CountedLabels(issue, a))
  {
    ExchangeIsAll(issue.labels, AttemptLabels(issue.labels), RecordAdds(issue.labels, FailureCount(issue.labels) + 1), a.recorded);
  }

  /** A pass over an issue with an unhealthy model records the failure, unless it hands the issue to a human. */
  lemma PassRecords(tick: InfraTick, table: LabelTable, r: Ref, i: nat)
    requires Legal(tick) && UnhealthyAt(tick, table, r, i) && !Parks(table[r], tick.cfg.maxFailures)
    ensures r in RunTick(tick, table).labels && RecordsFailure(table[r], RunTick(tick, table).labels[r])
  {
    PassWritesLabels(tick.cfg, tick.probe, tick.issues, tick.answers, InfraState(tick.objects, tick.load, table, []), i, r);
    CountedIsRecorded(tick.issues[i], tick.answers[i]);
  }

  /** Every tick up to k finds the issue listed with an unhealthy model and a count it can write. */
  ghost predicate StaysUnhealthy(tables: seq<LabelTable>, ticks: seq<InfraTick>, at: seq<nat>, r: Ref, k: nat)
    requires k <= |ticks| < |tables|
  {
    |at| == |ticks| && forall j :: 0 <= j < k ==> Legal(ticks[j]) && UnhealthyAt(ticks[j], tables[j], r, at[j])
  }

  predicate ParksAt(tables: seq<LabelTable>, r: Ref, maxFailures: int, k: nat) {
    k < |tables| && r in tables[k] && Parks(tables[k][r], maxFailures)
  }

  function LabelsAt(table: LabelTable, r: Ref): seq<string> {
    if r in table then table[r] else []
  }

  /** The issue's labels from tick to tick. */
  function LabelHistory(tables: seq<LabelTable>, r: Ref, k: nat): (history: seq<seq<string>>)
    requires k < |tables|
    ensures |history| == k + 1 && forall j :: 0 <= j <= k ==> history[j] == LabelsAt(tables[j], r)
  {
    seq(k + 1, j requires 0 <= j <= k => LabelsAt(tables[j], r))
  }

  lemma StepYieldsRecord(tables: seq<LabelTable>, ticks: seq<InfraTick>, at: seq<nat>, r: Ref, maxFailures: int, k: nat)
    requires IsRun(tables, ticks, maxFailures) && k < |ticks| && StaysUnhealthy(tables, ticks, at, r, k + 1)
    requires !ParksAt(tables, r, maxFailures, k)
    ensures r in tables[k + 1] && RecordsFailure(LabelsAt(tables[k], r), LabelsAt(tables[k + 1], r))
  {
    assert Follows(tables, ticks, k);
    PassRecords(ticks[k], tables[k], r, at[k]);
  }

  lemma HistoryLinks(tables: seq<LabelTable>, r: Ref, k: nat, j: nat)
    requires 0 < j <= k < |tables| && RecordsFailure(LabelsAt(tables[j - 1], r), LabelsAt(tables[j], r))
    ensures Links(LabelHistory(tables, r, k), j)
  {
    LinkIs(LabelHistory(tables, r, k), j, LabelsAt(tables[j - 1], r), LabelsAt(tables[j], r));
  }

  /** Until it is parked, the issue's labels in the tables of a run are such a history. */
  lemma RunYieldsHistory(
    tables: seq<LabelTable>, ticks: seq<InfraTick>, at: seq<nat>, r: Ref, maxFailures: int, k: nat)
    requires IsRun(tables, ticks, maxFailures) && k <= |ticks| && StaysUnhealthy(tables, ticks, at, r, k) && r in tables[0]
    requires forall j :: 0 <= j < k ==> !ParksAt(tables, r, maxFailures, j)
    ensures r in tables[k] && Unhealthy(LabelHistory(tables, r, k))
  {
    if k > 0 {
      StepYieldsRecord(tables, ticks, at, r, maxFailures, k - 1);
    }
    forall j | 0 < j < k + 1 ensures Links(LabelHistory(tables, r, k), j) {
      StepYieldsRecord(tables, ticks, at, r, maxFailures, j - 1);
      HistoryLinks(tables, r, k, j);
    }
  }

  /** The tick hands the issue to a human. */
  predicate HandsOver(tick: InfraTick, table: LabelTable, i: nat)
    requires Legal(tick)
  {
    var results := RunTick(tick, table).results;
    i < |results| && results[i].HandedToHuman?
  }

  lemma HandsOverExactly(tick: InfraTick, table: LabelTable, r: Ref, i: nat)
    requires Legal(tick) && ListedAt(tick, table, r, i)
    ensures HandsOver(tick, table, i) <==> Parks(table[r], tick.cfg.maxFailures)
  {
    EveryIssueJustified(tick.cfg, tick.probe, tick.issues, tick.answers, InfraState(tick.objects, tick.load, table, []));
    assert Justified(tick.cfg, tick.probe, tick.issues[i], RunTick(tick, table).results[i]);
  }

  predicate Unparked(tables: seq<LabelTable>, r: Ref, maxFailures: int, k: nat) {
    forall j :: 0 <= j < k ==> !ParksAt(tables, r, maxFailures, j)
  }

  /** Until it is parked, the count has risen by one on every tick. */
  lemma CountAt(tables: seq<LabelTable>, ticks: seq<InfraTick>, at: seq<nat>, r: Ref, maxFailures: int, k: nat, first: int)
    requires IsRun(tables, ticks, maxFailures) && k <= |ticks| && StaysUnhealthy(tables, ticks, at, r, k) && r in tables[0]
    requires Unparked(tables, r, maxFailures, k) && first == FailureCount(tables[0][r])
    ensures r in tables[k] && FailureCount(tables[k][r]) == first + k
  {
    RunYieldsHistory(tables, ticks, at, r, maxFailures, k);
    CountRises(LabelHistory(tables, r, k), k);
  }

  /** Counts that rise by one until they reach a cap first reach it where they must. */
  predicate RisesBelow(counts: seq<int>, cap: int, first: int, k: nat) {
    k < |counts| && (Below(counts, cap, k) ==> counts[k] == first + k)
  }

  predicate Below(counts: seq<int>, cap: int, k: nat) {
    k <= |counts| && forall i :: 0 <= i < k ==> counts[i] + 1 < cap
  }

  lemma {:induction false} BelowUntil(counts: seq<int>, cap: int, first: int, k: nat)
    requires forall j :: 0 <= j < k ==> RisesBelow(counts, cap, first, j)
    requires k <= |counts| && (k < cap - first || k == 0)
    ensures Below(counts, cap, k)
  {
    if k > 0 {
      BelowUntil(counts, cap, first, k - 1);
      assert RisesBelow(counts, cap, first, k - 1);
    }
  }

  lemma FirstReached(counts: seq<int>, cap: int, first: int, k: nat)
    requires forall j :: 0 <= j <= k ==> RisesBelow(counts, cap, first, j)
    ensures k < |counts|
    ensures counts[k] + 1 >= cap && Below(counts, cap, k) <==> k + 1 == if cap - first > 1 then cap - first else 1
  {
    assert RisesBelow(counts, cap, first, k);
    if k + 1 == (if cap - first > 1 then cap - first else 1) {
      BelowUntil(counts, cap, first, k);
    }
    if k > 0 && Below(counts, cap, k) {
      assert RisesBelow(counts, cap, first, k - 1) && Below(counts, cap, k - 1);
    }
  }

  function CountIn(table: LabelTable, r: Ref): int {
    FailureCount(LabelsAt(table, r))
  }

  function Counts(tables: seq<LabelTable>, r: Ref): (counts: seq<int>)
    ensures |counts| == |tables| && forall j :: 0 <= j < |tables| ==> counts[j] == CountIn(tables[j], r)
  {
    seq(|tables|, j requires 0 <= j < |tables| => CountIn(tables[j], r))
  }

  lemma CountsRise(tables: seq<LabelTable>, ticks: seq<InfraTick>, at: seq<nat>, r: Ref, maxFailures: int, k: nat)
    requires IsRun(tables, ticks, maxFailures) && k <= |ticks| && StaysUnhealthy(tables, ticks, at, r, k) && r in tables[0]
    ensures RisesBelow(Counts(tables, r), maxFailures, CountIn(tables[0], r), k)
  {
    if Below(Counts(tables, r), maxFailures, k) {
      forall j | 0 <= j < k ensures !ParksAt(tables, r, maxFailures, j) {
        assert Counts(tables, r)[j] + 1 < maxFailures;
      }
      CountAt(tables, ticks, at, r, maxFailures, k, CountIn(tables[0], r));
    }
  }

  lemma HandsOverByCount(tick: InfraTick, table: LabelTable, r: Ref, i: nat, maxFailures: int)
    requires Legal(tick) && UnhealthyAt(tick, table, r, i) && tick.cfg.maxFailures == maxFailures
    ensures HandsOver(tick, table, i) <==> CountIn(table, r) + 1 >= maxFailures
  {
    HandsOverExactly(tick, table, r, i);
  }

  /**
   * From count c, with its model unhealthy and the count written on every tick, an issue is first handed to a human on tick
   * max(1, maxFailures - c).
   */
  lemma FirstHumanPark(tables: seq<LabelTable>, ticks: seq<InfraTick>, at: seq<nat>, r: Ref, maxFailures: int, k: nat)
    requires IsRun(tables, ticks, maxFailures) && k < |ticks| && StaysUnhealthy(tables, ticks, at, r, k + 1) && r in tables[0]
    ensures var wait := maxFailures - FailureCount(tables[0][r]);
      (HandsOver(ticks[k], tables[k], at[k]) && forall j :: 0 <= j < k ==> !HandsOver(ticks[j], tables[j], at[j]))
      <==> k + 1 == if wait > 1 then wait else 1
  {
    var counts := Counts(tables, r);
    forall j | 0 <= j <= k
      ensures HandsOver(ticks[j], tables[j], at[j]) <==> counts[j] + 1 >= maxFailures
      ensures RisesBelow(counts, maxFailures, CountIn(tables[0], r), j)
    {
      assert Follows(tables, ticks, j);
      HandsOverByCount(ticks[j], tables[j], r, at[j], maxFailures);
      CountsRise(tables, ticks, at, r, maxFailures, j);
    }
    FirstReached(counts, maxFailures, CountIn(tables[0], r), k);
  }

  // ----- Handed over again

  /** `clear_infra_marker` could not take off some count that is used up. */
  predicate CountLeft(labels: seq<string>, cleared: LabelReplies, maxFailures: int) {
    exists l :: l in labels && LastCount(l, maxFailures) && Refused(MarkerLabels(labels), cleared.removed, l)
  }

  /** What `clear_infra_marker` could not take off stays, and a count among it is still used up. */
  lemma LeftAfterPark(issue: Issue, a: InfraAnswers, maxFailures: int)
    requires maxFailures > 1 && a.park == Yes
    ensures var left, markers := ParkedLabels(issue, a), MarkerLabels(issue.labels);
      && (BLOCKED_LABEL in left <==> BLOCKED_LABEL in issue.labels && Refused(markers, a.cleared.removed, BLOCKED_LABEL))
      && (Parks(left, maxFailures) <==> CountLeft(issue.labels, a.cleared, maxFailures))
  {
    var marked := if a.marked then With(issue.labels, NEEDS_HUMAN) else issue.labels;
    var left, markers := ParkedLabels(issue, a), MarkerLabels(issue.labels);
    assert left == Removals(marked, markers, a.cleared.removed);
    ParksByLabel(left, maxFailures);
    RemovalsKeep(marked, markers, a.cleared.removed, BLOCKED_LABEL);
    forall l | LastCount(l, maxFailures)
      ensures l in left <==> l in issue.labels && Refused(markers, a.cleared.removed, l)
    {
      RemovalsKeep(marked, markers, a.cleared.removed, l);
      assert IsAttempt(l) && !(ATTEMPT_PREFIX <= NEEDS_HUMAN);
    }
  }

  /**
   * An issue handed to a human is handed over again, with another comment, by the next pass that lists it, exactly when the
   * park was not reported, or no write took off a count that is used up.
   */
  lemma HandedOverAgain(tick: InfraTick, next: InfraTick, table: LabelTable, r: Ref, i: nat, k: nat)
    requires Legal(tick) && ListedAt(tick, table, r, i) && HandsOver(tick, table, i)
    requires Legal(next) && ListedAt(next, RunTick(tick, table).labels, r, k)
    requires tick.cfg.maxFailures == next.cfg.maxFailures > 1
    ensures HandsOver(next, RunTick(tick, table).labels, k) <==>
      tick.answers[i].park != Yes || CountLeft(table[r], tick.answers[i].cleared, tick.cfg.maxFailures)
  {
    HandsOverExactly(tick, table, r, i);
    HandsOverExactly(next, RunTick(tick, table).labels, r, k);
    PassWritesLabels(tick.cfg, tick.probe, tick.issues, tick.answers, InfraState(tick.objects, tick.load, table, []), i, r);
    if tick.answers[i].park == Yes {
      LeftAfterPark(tick.issues[i], tick.answers[i], tick.cfg.maxFailures);
    }
  }

  /** The next listing shows it only if the blocked label could not be taken off either. */
  lemma ListedAgain(tick: InfraTick, table: LabelTable, r: Ref, i: nat)
    requires Legal(tick) && ListedAt(tick, table, r, i) && HandsOver(tick, table, i) && tick.answers[i].park == Yes
    requires tick.cfg.maxFailures > 1
    ensures r in RunTick(tick, table).labels
    ensures BLOCKED_LABEL in RunTick(tick, table).labels[r] <==>
      BLOCKED_LABEL in table[r] && Refused(MarkerLabels(table[r]), tick.answers[i].cleared.removed, BLOCKED_LABEL)
  {
    HandsOverExactly(tick, table, r, i);
    PassWritesLabels(tick.cfg, tick.probe, tick.issues, tick.answers, InfraState(tick.objects, tick.load, table, []), i, r);
    LeftAfterPark(tick.issues[i], tick.answers[i], tick.cfg.maxFailures);
  }
}
