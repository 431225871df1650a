/** Rendering a claimed issue into a Workload, and reading the issue back from the Workload. */
module Build {
  import opened Outcomes
  import opened Text
  import opened Slug
  import opened Workloads

  const VERIFIER_AGENT := "gate"

  datatype ClaimedItem = ClaimedItem(repo: string, issueNumber: int, intent: string, lane: string, issueId: string)

  /** The parts of the configuration every rendered Workload takes over. */
  datatype Render = Render(
    reviewers: seq<string>,
    verifyEnabled: bool,
    selfGo: seq<string>,
    gateProfiles: map<string, GateProfile>)

  /** `gate_profile_for`: the repo's own profile, else the wildcard's. */
  function GateProfileFor(repo: string, profiles: map<string, GateProfile>): Option<GateProfile> {
    if repo in profiles then Some(profiles[repo])
    else if "*" in profiles then Some(profiles["*"])
    else None
  }

  /** The language that routes a repo's work; only its own profile counts. */
  function LanguageOf(repo: string, profiles: map<string, GateProfile>): Option<string> {
    if repo in profiles then profiles[repo].language else None
  }

  // ----- The explicit pipeline of a retry that carries feedback

  function BasePayload(item: ClaimedItem): Payload {
    Payload(item.repo, Some(item.issueNumber), Some(BranchName(item.repo, item.issueNumber)), None, None, None, false, false)
  }

  function CodeStepName(n: int): string {
    "code-" + IntText(n)
  }

  function VerifyStepName(n: int): string {
    "verify-" + IntText(n)
  }

  function ReviewStepName(n: int, i: nat): string {
    "review-" + IntText(n) + ("-" + NatText(i))
  }

  function CodeStep(item: ClaimedItem, coder: string, feedback: string, overwrite: bool): Step {
    Step(CodeStepName(item.issueNumber), IssueFix, Some(coder), [],
      BasePayload(item).(prompt := Some(feedback), allowOverwrite := overwrite))
  }

  function VerifyStep(item: ClaimedItem): Step {
    Step(VerifyStepName(item.issueNumber), Verify, Some(VERIFIER_AGENT), [CodeStepName(item.issueNumber)], BasePayload(item))
  }

  function ReviewStep(item: ClaimedItem, i: nat, reviewer: string, verifyEnabled: bool): Step {
    var n := item.issueNumber;
    Step(ReviewStepName(n, i), Review, Some(reviewer),
      [if verifyEnabled then VerifyStepName(n) else CodeStepName(n)],
      BasePayload(item).(openPullRequest := true))
  }

  function Front(item: ClaimedItem, coder: string, feedback: string, overwrite: bool, verifyEnabled: bool): seq<Step> {
    [CodeStep(item, coder, feedback, overwrite)] + (if verifyEnabled then [VerifyStep(item)] else [])
  }

  function ReviewSteps(item: ClaimedItem, reviewers: seq<string>, verifyEnabled: bool): seq<Step> {
    seq(|reviewers|, i requires 0 <= i < |reviewers| => ReviewStep(item, i, reviewers[i], verifyEnabled))
  }

  function Pipeline(item: ClaimedItem, coder: string, feedback: string, overwrite: bool, render: Render): seq<Step> {
    Front(item, coder, feedback, overwrite, render.verifyEnabled) + ReviewSteps(item, render.reviewers, render.verifyEnabled)
  }

  /** `_pipeline_steps`. */
  method PipelineSteps(item: ClaimedItem, coder: string, feedback: string, overwrite: bool, render: Render)
    returns (steps: seq<Step>)
    ensures steps == Pipeline(item, coder, feedback, overwrite, render)
  {
    steps := [CodeStep(item, coder, feedback, overwrite)];
    if render.verifyEnabled {
      steps := steps + [VerifyStep(item)];
    }
    ghost var front := steps;
    for i := 0 to |render.reviewers|
      invariant steps == front + ReviewSteps(item, render.reviewers, render.verifyEnabled)[..i]
    {
      var all := ReviewSteps(item, render.reviewers, render.verifyEnabled);
      assert all[..i + 1] == all[..i] + [all[i]];
      steps := steps + [ReviewStep(item, i, render.reviewers[i], render.verifyEnabled)];
    }
  }

  /** Every dependency names exactly one step, and that step comes earlier. */
  ghost predicate DependsBackwards(steps: seq<Step>) {
    forall k, d :: 0 <= k < |steps| && d in steps[k].dependsOn ==>
      exists j :: 0 <= j < k && steps[j].name == d && forall i :: 0 <= i < |steps| && steps[i].name == d ==> i == j
  }

  ghost predicate DistinctNames(steps: seq<Step>) {
    forall i, j :: 0 <= i < j < |steps| ==> steps[i].name != steps[j].name
  }

  lemma ReviewNamesDiffer(n: int, i: nat, j: nat)
    requires i != j
    ensures ReviewStepName(n, i) != ReviewStepName(n, j)
  {
    if ReviewStepName(n, i) == ReviewStepName(n, j) {
      var front := "review-" + IntText(n);
      assert ReviewStepName(n, i)[|front|..] == "-" + NatText(i);
      assert ReviewStepName(n, j)[|front|..] == "-" + NatText(j);
      assert ("-" + NatText(i))[1..] == NatText(i) && ("-" + NatText(j))[1..] == NatText(j);
      NatTextInjective(i, j);
    }
  }

  lemma StepNamesDiffer(n: int, i: nat)
    ensures CodeStepName(n)[0] == 'c' && VerifyStepName(n)[0] == 'v' && ReviewStepName(n, i)[0] == 'r'
  {
  }

  /** For any reviewer list, the pipeline's steps have different names and depend only on earlier steps. */
  lemma PipelineIsOrdered(item: ClaimedItem, coder: string, feedback: string, overwrite: bool, render: Render)
    ensures var steps := Pipeline(item, coder, feedback, overwrite, render);
      DistinctNames(steps) && DependsBackwards(steps)
  {
    var steps := Pipeline(item, coder, feedback, overwrite, render);
    var n := item.issueNumber;
    var front := if render.verifyEnabled then 2 else 1;
    assert steps[0].name == CodeStepName(n) && steps[0].dependsOn == [];
    assert render.verifyEnabled ==> steps[1].name == VerifyStepName(n) && steps[1].dependsOn == [steps[0].name];
    forall i | front <= i < |steps|
      ensures steps[i].name == ReviewStepName(n, i - front) && steps[i].dependsOn == [steps[front - 1].name]
    {
      assert steps[i] == ReviewStep(item, i - front, render.reviewers[i - front], render.verifyEnabled);
    }
    NamesAreDistinct(steps, n, front);
    forall k, d | 0 <= k < |steps| && d in steps[k].dependsOn
      ensures exists j :: 0 <= j < k && steps[j].name == d && forall i :: 0 <= i < |steps| && steps[i].name == d ==> i == j
    {
      var j := if k < front then 0 else front - 1;
      assert steps[j].name == d;
    }
  }

  lemma NamesAreDistinct(steps: seq<Step>, n: int, front: nat)
    requires 1 <= front <= 2 && front <= |steps|
    requires steps[0].name == CodeStepName(n) && (front == 2 ==> steps[1].name == VerifyStepName(n))
    requires forall i :: front <= i < |steps| ==> steps[i].name == ReviewStepName(n, i - front)
    ensures DistinctNames(steps)
  {
    forall i, j | 0 <= i < j < |steps| ensures steps[i].name != steps[j].name {
      StepNamesDiffer(n, 0);
      if front <= j {
        StepNamesDiffer(n, j - front);
        if front <= i {
          ReviewNamesDiffer(n, i - front, j - front);
        }
      }
    }
  }

  // ----- The Workload manifest

  function Manifest(name: string, createdBy: Creator, lane: string, notes: map<Note, string>, spec: Spec): Workload {
    Workload(name, createdBy, lane, notes, spec, NoPhase, false, false)
  }

  function IssueNotes(attempt: int, infraAttempt: int, issueId: string): map<Note, string> {
    map[Attempt := IntText(attempt), InfraAttempt := IntText(infraAttempt), IssueId := issueId]
  }

  /** `build_workload`. An empty reviseFrom sets neither reviseFromBranch nor allowOverwrite. */
  function BuildWorkload(
    item: ClaimedItem, attempt: int, infraAttempt: int, coder: string, feedback: string,
    revisionCoder: string, reviseFrom: string, render: Render): Workload
  {
    var overwrite := reviseFrom != "";
    var revise := if overwrite then Some(reviseFrom) else None;
    var profile := GateProfileFor(item.repo, render.gateProfiles);
    var spec :=
      if feedback != "" then
        Spec(item.intent, item.repo, [item.issueNumber], Pipeline(item, coder, feedback, overwrite, render),
          None, [], None, None, revise, overwrite, render.selfGo, profile)
      else
        Spec(item.intent, item.repo, [item.issueNumber], [], Some(coder), render.reviewers,
          if render.verifyEnabled then Some(VERIFIER_AGENT) else None,
          if revisionCoder != "" then Some(revisionCoder) else None,
          revise, overwrite, render.selfGo, profile);
    Manifest(WorkloadName(item.repo, item.issueNumber), IssueBridge, item.lane,
      IssueNotes(attempt, infraAttempt, item.issueId), spec)
  }

  /** `item_from_workload`. */
  function ItemFromWorkload(w: Workload): ClaimedItem {
    ClaimedItem(w.spec.repo,
      if w.spec.issues != [] then w.spec.issues[0] else IssueFromName(w.name),
      w.spec.intent, w.lane, NoteOr(w, IssueId, ""))
  }

  /** `max(1, int(annotation))`, and 1 for an absent or unreadable one. */
  function Counter(w: Workload, key: Note): (n: int)
    ensures n >= 1
  {
    match ParseInt(NoteOr(w, key, "1"))
    case None => 1
    case Some(value) => if value > 1 then value else 1
  }

  function AttemptOf(w: Workload): int {
    Counter(w, Attempt)
  }

  function InfraAttemptOf(w: Workload): int {
    Counter(w, InfraAttempt)
  }

  /** Foreman may overwrite the task branch only when it also starts from it. */
  predicate OverwritesOnlyWhatItRevises(w: Workload) {
    && (w.spec.allowOverwrite <==> w.spec.reviseFromBranch.Some?)
    && (w.spec.reviseFromBranch.Some? ==> w.spec.reviseFromBranch.value != "")
    && (forall k :: 0 <= k < |w.spec.pipeline| && w.spec.pipeline[k].payload.allowOverwrite ==> w.spec.allowOverwrite)
  }

  lemma CounterReadsBack(w: Workload, key: Note, n: int)
    requires n >= 1 && key in w.notes && w.notes[key] == IntText(n)
    ensures Counter(w, key) == n
  {
    IntTextRoundTrip(n);
  }

  /** A rendered Workload gives back the issue, the counters and the name it was rendered from. */
  lemma BuiltWorkloadReadsBack(
    item: ClaimedItem, attempt: int, infraAttempt: int, coder: string, feedback: string,
    revisionCoder: string, reviseFrom: string, render: Render)
    requires attempt >= 1 && infraAttempt >= 1
    ensures var w := BuildWorkload(item, attempt, infraAttempt, coder, feedback, revisionCoder, reviseFrom, render);
      && ItemFromWorkload(w) == item
      && AttemptOf(w) == attempt && InfraAttemptOf(w) == infraAttempt
      && (item.issueNumber >= 0 ==> IssueFromName(w.name) == item.issueNumber)
  {
    var w := BuildWorkload(item, attempt, infraAttempt, coder, feedback, revisionCoder, reviseFrom, render);
    CounterReadsBack(w, Attempt, attempt);
    CounterReadsBack(w, InfraAttempt, infraAttempt);
    if item.issueNumber >= 0 {
      NameCarriesIssue(item.repo, item.issueNumber);
    }
  }

  /** In both shapes overwriting is paired with revising, and any pipeline is well ordered. */
  lemma BuiltWorkloadIsSafe(
    item: ClaimedItem, attempt: int, infraAttempt: int, coder: string, feedback: string,
    revisionCoder: string, reviseFrom: string, render: Render)
    ensures var w := BuildWorkload(item, attempt, infraAttempt, coder, feedback, revisionCoder, reviseFrom, render);
      && OverwritesOnlyWhatItRevises(w)
      && (w.spec.allowOverwrite <==> reviseFrom != "")
      && (w.spec.pipeline != [] ==> (w.spec.pipeline[0].payload.allowOverwrite <==> w.spec.allowOverwrite))
      && DistinctNames(w.spec.pipeline) && DependsBackwards(w.spec.pipeline)
  {
    PipelineIsOrdered(item, coder, feedback, reviseFrom != "", render);
  }

  /** Every step works on the issue's own branch. */
  predicate OnBranch(steps: seq<Step>, branch: string) {
    forall k :: 0 <= k < |steps| ==> steps[k].payload.branch == Some(branch)
  }

  /** Exactly the review steps open the pull request, and exactly the coding step is prompted. */
  predicate RolesFit(steps: seq<Step>, prompt: string) {
    forall k :: 0 <= k < |steps| ==>
      && (steps[k].payload.openPullRequest <==> steps[k].kind == Review)
      && steps[k].payload.prompt == (if steps[k].kind == IssueFix then Some(prompt) else None)
      && (steps[k].payload.allowOverwrite ==> steps[k].kind == IssueFix)
  }

  /** One coding step by coder, the gate if it is on, and a review by every reviewer in turn. */
  predicate Staffed(steps: seq<Step>, coder: string, render: Render) {
    var front := if render.verifyEnabled then 2 else 1;
    && |steps| == front + |render.reviewers|
    && steps[0].kind == IssueFix && steps[0].agent == Some(coder)
    && (render.verifyEnabled ==> steps[1].kind == Verify && steps[1].agent == Some("gate"))
    && forall k :: front <= k < |steps| ==> steps[k].kind == Review && steps[k].agent == Some(render.reviewers[k - front])
  }

  /** The spec names everybody for Foreman to build the pipeline from. */
  predicate LeftToForeman(spec: Spec, coder: string, revisionCoder: string, render: Render) {
    && spec.coder == Some(coder) && spec.reviewers == render.reviewers
    && spec.verifier == (if render.verifyEnabled then Some("gate") else None)
    && spec.revisionCoder == (if revisionCoder == "" then None else Some(revisionCoder))
  }

  lemma PipelineWorks(item: ClaimedItem, coder: string, feedback: string, overwrite: bool, render: Render)
    ensures var steps := Pipeline(item, coder, feedback, overwrite, render);
      && OnBranch(steps, BranchName(item.repo, item.issueNumber)) && RolesFit(steps, feedback) && Staffed(steps, coder, render)
      && steps[0].payload.allowOverwrite == overwrite
  {
    var steps := Pipeline(item, coder, feedback, overwrite, render);
    var front := if render.verifyEnabled then 2 else 1;
    assert steps[0] == CodeStep(item, coder, feedback, overwrite);
    assert render.verifyEnabled ==> steps[1] == VerifyStep(item);
    forall i | front <= i < |steps|
      ensures steps[i] == ReviewStep(item, i - front, render.reviewers[i - front], render.verifyEnabled)
    {
    }
  }

  /**
   * A Workload that revises starts from the branch its steps work on. With feedback it runs the pipeline, which puts the
   * feedback before the coder; without, it names coder, reviewers and gate for Foreman to run.
   */
  lemma BuiltWorkloadWorks(
    item: ClaimedItem, attempt: int, infraAttempt: int, coder: string, feedback: string, revisionCoder: string, revise: bool,
    render: Render)
    ensures var branch := BranchName(item.repo, item.issueNumber);
      var w := BuildWorkload(item, attempt, infraAttempt, coder, feedback, revisionCoder, if revise then branch else "", render);
      && w.spec.reviseFromBranch == (if revise then Some(branch) else None)
      && w.name == WorkloadName(item.repo, item.issueNumber) && w.createdBy == IssueBridge
      && OnBranch(w.spec.pipeline, branch)
      && (feedback != "" ==> RolesFit(w.spec.pipeline, feedback) && Staffed(w.spec.pipeline, coder, render))
      && (feedback == "" ==> w.spec.pipeline == [] && LeftToForeman(w.spec, coder, revisionCoder, render))
  {
    PipelineWorks(item, coder, feedback, revise, render);
  }

  /** `_coder_agent_name`: the coder named at the top of the spec, else on the first issue-fix step that names one. */
  function CoderOf(w: Workload): Option<string> {
    if w.spec.coder.Some? && w.spec.coder.value != "" then w.spec.coder else StepCoder(w.spec.pipeline)
  }

  function StepCoder(steps: seq<Step>): Option<string> {
    if steps == [] then None
    else if steps[0].kind == IssueFix && steps[0].agent.Some? && steps[0].agent.value != "" then steps[0].agent
    else StepCoder(steps[1..])
  }

  /** In both shapes the load accounting finds the coder a Workload was rendered for. */
  lemma BuiltWorkloadNamesCoder(
    item: ClaimedItem, attempt: int, infraAttempt: int, coder: string, feedback: string,
    revisionCoder: string, reviseFrom: string, render: Render)
    requires coder != ""
    ensures CoderOf(BuildWorkload(item, attempt, infraAttempt, coder, feedback, revisionCoder, reviseFrom, render)) == Some(coder)
  {
    var w := BuildWorkload(item, attempt, infraAttempt, coder, feedback, revisionCoder, reviseFrom, render);
    if feedback != "" {
      assert w.spec.pipeline[0] == CodeStep(item, coder, feedback, reviseFrom != "");
    }
  }
}
