/** Retrying Failed issue Workloads: one pass over everything the cluster lists as Failed. */
module Retry {
  import opened Outcomes
  import opened Text
  import opened Slug
  import opened Workloads
  import opened Coders
  import opened Build

  // ----- What the tasks of a Workload say

  datatype Verdict = Go | NoGo | Incomplete | NoVerdict

  datatype Escalation = DesignDecision | NoTechnicalFix | BudgetExhausted

  datatype Task = Task(
    kind: Kind,
    verdict: Verdict,
    executorError: bool,
    demotedBy: string,
    claimedVerdict: Verdict,
    hasFindings: bool,
    escalation: string,
    pullRequest: bool,
    pushRejected: bool)

  const RAILS: set<string> := {"issueAsk", "scope-overlap"}

  predicate IsCoding(t: Task) {
    t.kind == IssueFix || t.kind == Code
  }

  predicate CoderSaidNo(tasks: seq<Task>) {
    exists t :: t in tasks && IsCoding(t) && t.verdict == NoGo
  }

  predicate AnyExecutorError(tasks: seq<Task>) {
    exists t :: t in tasks && t.executorError
  }

  /** A review NO-GO that a harness rail made out of a GO, with nothing for a coder to act on. */
  predicate DemotedByRail(t: Task) {
    t.kind == Review && t.verdict == NoGo && t.demotedBy in RAILS && t.claimedVerdict == Go && !t.hasFindings
  }

  predicate RailDemoted(tasks: seq<Task>) {
    exists t :: t in tasks && DemotedByRail(t)
  }

  function UpperText(s: string): string {
    seq(|s|, i requires 0 <= i < |s| => Upper(s[i]))
  }

  function ReadEscalation(s: string): Option<Escalation> {
    var text := UpperText(Strip(s));
    if text == "DESIGN-DECISION" then Some(DesignDecision)
    else if text == "NO-TECHNICAL-FIX" then Some(NoTechnicalFix)
    else if text == "BUDGET-EXHAUSTED" then Some(BudgetExhausted)
    else None
  }

  /** The first recognised escalation a coding task declares. */
  function DeclaredEscalation(tasks: seq<Task>): Option<Escalation> {
    if tasks == [] then None
    else if IsCoding(tasks[0]) && ReadEscalation(tasks[0].escalation).Some? then ReadEscalation(tasks[0].escalation)
    else DeclaredEscalation(tasks[1..])
  }

  predicate BranchPushed(tasks: seq<Task>, onRemote: bool) {
    onRemote || exists t :: t in tasks && ShowsPush(t)
  }

  predicate ShowsPush(t: Task) {
    t.pullRequest || (t.kind == Review && t.verdict != NoVerdict) || (IsCoding(t) && t.verdict == Go) || t.pushRejected
  }

  /** What the branch lookup on the remote says; a failed one is no evidence. */
  datatype RemoteReply = Exists | Missing | LookupFailed

  function PushReply(tasks: Try<seq<Task>>, remote: RemoteReply): Reply {
    if tasks.Raised? then Raises else if BranchPushed(tasks.value, remote == Exists) then Yes else No
  }

  /** `branch_pushed_for` and `branch_pushed`: the task list is fetched first, outside any handler. */
  method FindPush(tasks: Try<seq<Task>>, remote: RemoteReply) returns (reply: Reply)
    ensures reply == PushReply(tasks, remote)
    ensures reply == Raises <==> tasks.Raised?
    ensures reply == Yes <==> tasks.Returned? && BranchPushed(tasks.value, remote == Exists)
  {
    if tasks.Raised? {
      return Raises;
    }
    if remote == Exists {
      return Yes;
    }
    for i := 0 to |tasks.value|
      invariant forall k :: 0 <= k < i ==> !ShowsPush(tasks.value[k])
    {
      if ShowsPush(tasks.value[i]) {
        return Yes;
      }
    }
    reply := No;
  }

  // ----- What the world answers while one Workload is handled

  datatype IssueReply = IsOpen | IsClosed | NoAnswer | StateRaised

  datatype ParkedReply = IsParked | NotParked | Unknown | LookupRaised

  datatype Answers = Answers(
    tasks: Try<seq<Task>>,
    issue: IssueReply,
    declared: Try<Option<Escalation>>,
    parkedAtDeclared: ParkedReply,
    parkDeclared: Reply,
    parkedAtRail: ParkedReply,
    parkRail: Reply,
    parkedAtExhausted: ParkedReply,
    parkExhausted: Reply,
    parkInfra: Reply,
    escalate: Reply,
    foundId: string,
    feedback: string,
    pushTasks: Try<seq<Task>>,
    remote: RemoteReply,
    delete: DeleteReply,
    create: CreateReply)

  /** An empty escalationLane is an absent escalate hook. */
  datatype RetryConfig = RetryConfig(
    maxAttempts: int,
    infraMaxAttempts: int,
    escalationLane: string,
    routing: Routing,
    slots: Slots,
    laneIndex: map<(string, int), string>,
    render: Render)

  // ----- The outcome of one Workload

  datatype Tag =
    | SkipClosed | HumanEscalation | RailDemotedParked | GiveupInfra | NogoParked | NogoParkFailed
    | EscalateError | Escalated | Giveup | Deferred(coder: string) | RetryError | RetryInfra | RetryVerdict

  datatype Outcome = Outcome(name: string, tag: Tag)

  datatype Move =
    | Keep(tag: Tag)
    | Retire(tag: Tag)
    | HandOver
    | Recreate(next: Workload, coder: string, infra: bool)
    | Abort

  datatype PassState = PassState(objects: Objects, load: Load, results: seq<Outcome>, aborted: bool)

  function TasksOf(a: Answers): seq<Task> {
    if a.tasks.Returned? then a.tasks.value else []
  }

  predicate IsInfra(w: Workload, a: Answers) {
    w.executorError || AnyExecutorError(TasksOf(a))
  }

  predicate DeclaredStop(a: Answers) {
    && a.declared.Returned? && a.declared.value.Some? && a.declared.value.value != BudgetExhausted
    && (a.parkedAtDeclared == IsParked || a.parkDeclared == Yes)
  }

  predicate RailStop(w: Workload, a: Answers) {
    && !IsInfra(w, a) && RailDemoted(TasksOf(a))
    && (a.parkedAtRail == IsParked || a.parkRail == Yes)
  }

  /** `_park_exhausted`: a raising lookup or park counts as not parked. */
  predicate ExhaustedParked(a: Answers) {
    a.parkedAtExhausted == IsParked || (a.parkedAtExhausted != LookupRaised && a.parkExhausted == Yes)
  }

  predicate SaidNoTwice(w: Workload, a: Answers) {
    !IsInfra(w, a) && AttemptOf(w) >= 2 && CoderSaidNo(TasksOf(a))
  }

  /** What `branch_pushed_for` finds out about the task branch. */
  function Pushed(a: Answers): Reply {
    PushReply(a.pushTasks, a.remote)
  }

  /** `refresh_lane`. */
  function RefreshLane(item: ClaimedItem, laneIndex: map<(string, int), string>): ClaimedItem {
    var key := (item.repo, item.issueNumber);
    if key in laneIndex && laneIndex[key] != "" then item.(lane := laneIndex[key]) else item
  }

  /** The issue as Dispatch sees it now, with its id looked up when the Workload never carried one. */
  function CurrentItem(cfg: RetryConfig, w: Workload, a: Answers): ClaimedItem {
    var item := RefreshLane(ItemFromWorkload(w), cfg.laneIndex);
    if item.issueId == "" then item.(issueId := a.foundId) else item
  }

  predicate CanEscalate(cfg: RetryConfig, w: Workload, a: Answers) {
    var item := CurrentItem(cfg, w, a);
    cfg.escalationLane != "" && item.lane != cfg.escalationLane && item.issueId != ""
  }

  function ExhaustedMove(cfg: RetryConfig, w: Workload, a: Answers): Move {
    if CanEscalate(cfg, w, a) && a.escalate == Raises then Keep(EscalateError)
    else if CanEscalate(cfg, w, a) && a.escalate == Yes then HandOver
    else if ExhaustedParked(a) then Retire(Giveup)
    else Keep(Giveup)
  }

  function RetryCoder(cfg: RetryConfig, item: ClaimedItem): string {
    CoderFor(item.lane, LanguageOf(item.repo, cfg.render.gateProfiles), item.repo, item.issueNumber,
      cfg.routing, map[], map[], {})
  }

  function RetryManifest(cfg: RetryConfig, w: Workload, a: Answers, infra: bool): Workload {
    var item := CurrentItem(cfg, w, a);
    BuildWorkload(item,
      if infra then AttemptOf(w) else AttemptOf(w) + 1,
      if infra then InfraAttemptOf(w) + 1 else InfraAttemptOf(w),
      RetryCoder(cfg, item), a.feedback, "",
      if Pushed(a) == Yes then BranchName(item.repo, item.issueNumber) else "",
      cfg.render)
  }

  function RetryMove(cfg: RetryConfig, w: Workload, a: Answers, load: Load): Move {
    var coder := RetryCoder(cfg, CurrentItem(cfg, w, a));
    if Pushed(a) == Raises then Abort
    else if cfg.slots != map[] && FreeSlots(coder, load, cfg.slots) <= 0 then Keep(Deferred(coder))
    else Recreate(RetryManifest(cfg, w, a, IsInfra(w, a)), coder, IsInfra(w, a))
  }

  /** The reasons to leave a Workload alone that are looked at before any budget. */
  function EarlyStop(w: Workload, a: Answers): Option<Tag> {
    if a.issue == IsClosed then Some(SkipClosed)
    else if DeclaredStop(a) then Some(HumanEscalation)
    else if RailStop(w, a) then Some(RailDemotedParked)
    else None
  }

  /** No early stop, no spent budget and no settled NO-GO: the Workload gets as far as being retried. */
  predicate ReachesRetry(cfg: RetryConfig, w: Workload, a: Answers) {
    && EarlyStop(w, a).None?
    && !(IsInfra(w, a) && InfraAttemptOf(w) >= cfg.infraMaxAttempts)
    && !SaidNoTwice(w, a)
    && !(AttemptOf(w) >= cfg.maxAttempts && !IsInfra(w, a))
  }

  function Decide(cfg: RetryConfig, w: Workload, a: Answers, load: Load): Move {
    var stop := EarlyStop(w, a);
    if stop.Some? then Keep(stop.value)
    else if IsInfra(w, a) && InfraAttemptOf(w) >= cfg.infraMaxAttempts then
      (if a.parkInfra == Yes then Retire(GiveupInfra) else Keep(GiveupInfra))
    else if SaidNoTwice(w, a) then Retire(if ExhaustedParked(a) then NogoParked else NogoParkFailed)
    else if AttemptOf(w) >= cfg.maxAttempts && !IsInfra(w, a) then ExhaustedMove(cfg, w, a)
    else RetryMove(cfg, w, a, load)
  }

  /** The cluster and load afterwards and the tag reported; no tag is an exception that escaped. */
  datatype Effect = Effect(objects: Objects, load: Load, tag: Option<Tag>)

  function Replaced(objects: Objects, load: Load, name: string, a: Answers, next: Workload, coder: string, infra: bool): Effect {
    var deleted := AfterDelete(objects, name, a.delete);
    var created := AfterCreate(deleted, next, a.create);
    if a.delete != Gone then Effect(deleted, load, Some(RetryError))
    else if a.create != Stored then Effect(created, load, Some(RetryError))
    else Effect(created, Charge(load, coder), Some(if infra then RetryInfra else RetryVerdict))
  }

  function Carry(objects: Objects, load: Load, name: string, a: Answers, move: Move): Effect {
    match move
    case Keep(tag) => Effect(objects, load, Some(tag))
    case Retire(tag) => Effect(AfterDelete(objects, name, a.delete), load, Some(tag))
    case HandOver =>
      Effect(AfterDelete(objects, name, a.delete), load, Some(if a.delete == Gone then Escalated else EscalateError))
    case Recreate(next, coder, infra) => Replaced(objects, load, name, a, next, coder, infra)
    case Abort => Effect(objects, load, None)
  }

  function EffectOn(cfg: RetryConfig, w: Workload, a: Answers, objects: Objects, load: Load): Effect {
    Carry(objects, load, w.name, a, Decide(cfg, w, a, load))
  }

  function Handle(cfg: RetryConfig, w: Workload, a: Answers, st: PassState): PassState {
    var e := EffectOn(cfg, w, a, st.objects, st.load);
    if e.tag.None? then PassState(e.objects, e.load, st.results, true)
    else PassState(e.objects, e.load, st.results + [Outcome(w.name, e.tag.value)], st.aborted)
  }

  /** The whole pass; an exception that escapes one Workload ends it. */
  function Pass(cfg: RetryConfig, listed: seq<Workload>, answers: seq<Answers>, st: PassState): PassState
    requires |answers| == |listed|
  {
    if listed == [] then st
    else
      var n := |listed| - 1;
      var before := Pass(cfg, listed[..n], answers[..n], st);
      if before.aborted then before else Handle(cfg, listed[n], answers[n], before)
  }

  // ----- The pass as the bridge runs it

  method ParkExhausted(a: Answers) returns (parked: bool)
    ensures parked <==> ExhaustedParked(a)
  {
    if a.parkedAtExhausted == LookupRaised {
      return false;
    }
    if a.parkedAtExhausted == IsParked {
      return true;
    }
    parked := a.parkExhausted == Yes;
  }

  method FindItem(cfg: RetryConfig, w: Workload, a: Answers) returns (item: ClaimedItem)
    ensures item == CurrentItem(cfg, w, a)
  {
    item := RefreshLane(ItemFromWorkload(w), cfg.laneIndex);
    if item.issueId == "" {
      item := item.(issueId := a.foundId);
    }
  }

  method GiveUpOrEscalate(cfg: RetryConfig, w: Workload, a: Answers, cluster: Cluster) returns (tag: Tag)
    modifies cluster
    ensures Effect(cluster.objects, map[], Some(tag)) == Carry(old(cluster.objects), map[], w.name, a, ExhaustedMove(cfg, w, a))
  {
    var item := FindItem(cfg, w, a);
    var canEscalate := cfg.escalationLane != "" && item.lane != cfg.escalationLane && item.issueId != "";
    if canEscalate && a.escalate == Raises {
      return EscalateError;
    }
    if canEscalate && a.escalate == Yes {
      var raised := cluster.Delete(w.name, a.delete);
      return if raised then EscalateError else Escalated;
    }
    var parked := ParkExhausted(a);
    tag := Giveup;
    if parked {
      var _ := cluster.Delete(w.name, a.delete);
    }
  }

  /** Deletes the Failed Workload and creates its successor, charging the coder once that is stored. */
  method Replace(
    name: string, next: Workload, coder: string, infra: bool, a: Answers, cluster: Cluster, pool: CoderLoad)
    returns (tag: Tag)
    modifies cluster, pool
    ensures Effect(cluster.objects, pool.load, Some(tag))
      == Replaced(old(cluster.objects), old(pool.load), name, a, next, coder, infra)
  {
    var deleteRaised := cluster.Delete(name, a.delete);
    if deleteRaised {
      return RetryError;
    }
    var createRaised := cluster.Create(next, a.create);
    if createRaised {
      return RetryError;
    }
    pool.Draw(coder);
    return if infra then RetryInfra else RetryVerdict;
  }

  /** The next manifest; only the counter of the failure's own kind moves. */
  method Rerender(
    cfg: RetryConfig, w: Workload, a: Answers, item: ClaimedItem, coder: string, infra: bool, pushed: Reply)
    returns (manifest: Workload)
    requires item == CurrentItem(cfg, w, a) && coder == RetryCoder(cfg, item) && pushed == Pushed(a)
    ensures manifest == RetryManifest(cfg, w, a, infra)
    ensures AttemptOf(manifest) == AttemptOf(w) + (if infra then 0 else 1)
    ensures InfraAttemptOf(manifest) == InfraAttemptOf(w) + (if infra then 1 else 0)
  {
    var reviseFrom := if pushed == Yes then BranchName(item.repo, item.issueNumber) else "";
    var attempt, infraAttempt := AttemptOf(w), InfraAttemptOf(w);
    if infra {
      infraAttempt := infraAttempt + 1;
    } else {
      attempt := attempt + 1;
    }
    manifest := BuildWorkload(item, attempt, infraAttempt, coder, a.feedback, "", reviseFrom, cfg.render);
    BuiltWorkloadReadsBack(item, attempt, infraAttempt, coder, a.feedback, "", reviseFrom, cfg.render);
  }

  lemma RetryMoveIs(cfg: RetryConfig, w: Workload, a: Answers, load: Load, item: ClaimedItem, coder: string, infra: bool)
    requires item == CurrentItem(cfg, w, a) && coder == RetryCoder(cfg, item) && infra == IsInfra(w, a)
    requires Pushed(a) != Raises && !(cfg.slots != map[] && FreeSlots(coder, load, cfg.slots) <= 0)
    ensures RetryMove(cfg, w, a, load) == Recreate(RetryManifest(cfg, w, a, infra), coder, infra)
  {
  }

  method Recast(
    cfg: RetryConfig, w: Workload, a: Answers, item: ClaimedItem, coder: string, infra: bool, pushed: Reply,
    cluster: Cluster, pool: CoderLoad)
    returns (tag: Tag)
    requires item == CurrentItem(cfg, w, a) && coder == RetryCoder(cfg, item) && pushed == Pushed(a)
    modifies cluster, pool
    ensures Effect(cluster.objects, pool.load, Some(tag))
      == Replaced(old(cluster.objects), old(pool.load), w.name, a, RetryManifest(cfg, w, a, infra), coder, infra)
  {
    var manifest := Rerender(cfg, w, a, item, coder, infra, pushed);
    tag := Replace(w.name, manifest, coder, infra, a, cluster, pool);
  }

  method RetryOne(cfg: RetryConfig, w: Workload, a: Answers, infra: bool, cluster: Cluster, pool: CoderLoad)
    returns (tag: Option<Tag>)
    requires infra == IsInfra(w, a)
    modifies cluster, pool
    ensures Effect(cluster.objects, pool.load, tag)
      == Carry(old(cluster.objects), old(pool.load), w.name, a, RetryMove(cfg, w, a, old(pool.load)))
  {
    var item := FindItem(cfg, w, a);
    var pushed := FindPush(a.pushTasks, a.remote);
    if pushed == Raises {
      return None;
    }
    var coder := RetryCoder(cfg, item);
    if cfg.slots != map[] && FreeSlots(coder, pool.load, cfg.slots) <= 0 {
      return Some(Deferred(coder));
    }
    RetryMoveIs(cfg, w, a, pool.load, item, coder, infra);
    var done := Recast(cfg, w, a, item, coder, infra, pushed, cluster, pool);
    tag := Some(done);
  }

  method StopEarly(w: Workload, a: Answers, infra: bool, tasks: seq<Task>) returns (tag: Option<Tag>)
    requires infra == IsInfra(w, a) && tasks == TasksOf(a)
    ensures tag == EarlyStop(w, a)
  {
    if a.issue == IsClosed {
      return Some(SkipClosed);
    }
    if a.declared.Returned? && a.declared.value.Some? && a.declared.value.value != BudgetExhausted {
      if a.parkedAtDeclared == IsParked {
        return Some(HumanEscalation);
      } else if a.parkDeclared == Yes {
        return Some(HumanEscalation);
      }
    }
    if !infra && RailDemoted(tasks) {
      if a.parkedAtRail == IsParked {
        return Some(RailDemotedParked);
      }
      if a.parkRail == Yes {
        return Some(RailDemotedParked);
      }
    }
    return None;
  }

  /** Handles one Failed Workload; no tag means an exception escaped. */
  method ReconcileOne(cfg: RetryConfig, w: Workload, a: Answers, cluster: Cluster, pool: CoderLoad)
    returns (tag: Option<Tag>)
    modifies cluster, pool
    ensures Effect(cluster.objects, pool.load, tag) == EffectOn(cfg, w, a, old(cluster.objects), old(pool.load))
  {
    var tasks := TasksOf(a);
    var infra := w.executorError || AnyExecutorError(tasks);
    tag := StopEarly(w, a, infra, tasks);
    if tag.Some? {
      return;
    }
    if infra && InfraAttemptOf(w) >= cfg.infraMaxAttempts {
      if a.parkInfra == Yes {
        var _ := cluster.Delete(w.name, a.delete);
      }
      return Some(GiveupInfra);
    }
    if !infra && AttemptOf(w) >= 2 && CoderSaidNo(tasks) {
      var parked := ParkExhausted(a);
      var _ := cluster.Delete(w.name, a.delete);
      return Some(if parked then NogoParked else NogoParkFailed);
    }
    if AttemptOf(w) >= cfg.maxAttempts && !infra {
      var exhausted := GiveUpOrEscalate(cfg, w, a, cluster);
      return Some(exhausted);
    }
    tag := RetryOne(cfg, w, a, infra, cluster, pool);
  }

  /** `reconcile_failures`. */
  method ReconcileFailures(cfg: RetryConfig, listed: seq<Workload>, answers: seq<Answers>, cluster: Cluster, pool: CoderLoad)
    returns (results: seq<Outcome>, aborted: bool)
    requires |answers| == |listed|
    modifies cluster, pool
    ensures PassState(cluster.objects, pool.load, results, aborted)
      == Pass(cfg, listed, answers, PassState(old(cluster.objects), old(pool.load), [], false))
  {
    ghost var start := PassState(cluster.objects, pool.load, [], false);
    results, aborted := [], false;
    var i := 0;
    while i < |listed| && !aborted
      invariant 0 <= i <= |listed|
      invariant PassState(cluster.objects, pool.load, results, aborted) == Pass(cfg, listed[..i], answers[..i], start)
    {
      var tag := ReconcileOne(cfg, listed[i], answers[i], cluster, pool);
      assert listed[..i + 1][..i] == listed[..i] && answers[..i + 1][..i] == answers[..i];
      if tag.None? {
        aborted := true;
      } else {
        results := results + [Outcome(listed[i].name, tag.value)];
      }
      i := i + 1;
    }
    AbortedPassStays(cfg, listed, answers, start, i);
    assert listed[..|listed|] == listed && answers[..|listed|] == answers;
  }

  lemma {:induction false} AbortedPassStays(cfg: RetryConfig, listed: seq<Workload>, answers: seq<Answers>, st: PassState, i: nat)
    requires |answers| == |listed| && i <= |listed|
    requires Pass(cfg, listed[..i], answers[..i], st).aborted || i == |listed|
    ensures Pass(cfg, listed, answers, st) == Pass(cfg, listed[..i], answers[..i], st)
    decreases |listed| - i
  {
    if i < |listed| {
      assert listed[..i + 1][..i] == listed[..i] && answers[..i + 1][..i] == answers[..i];
      AbortedPassStays(cfg, listed, answers, st, i + 1);
    } else {
      assert listed[..i] == listed && answers[..i] == answers;
    }
  }
}
