/** Fix Workloads for pull requests: settling, retrying and escalating them, and draining the queue of new ones. */
module PrFix {
  import opened Outcomes
  import opened Text
  import opened Slug
  import opened Workloads
  import opened Coders
  import opened Mergeability
  import Build

  const NORMAL := "NORMAL"
  const ESCALATED := "ESCALATED"

  /** How many coder tiers the ladder NORMAL, ESCALATED has. */
  const TIERS := 2

  datatype MarkStatus = FIXED | STALE | BLOCKED

  datatype FixConfig = FixConfig(maxAttempts: int, progressMax: int, laneAgents: map<string, string>, slots: Slots)

  /** What the world answers while one fix Workload is handled. */
  datatype FixAnswers = FixAnswers(
    probe: Try<PrView>,
    update: Reply,
    reprobe: Try<PrView>,
    mark: Reply,
    signature: Try<string>,
    delete: DeleteReply,
    create: CreateReply)

  datatype FixTag =
    | PrMerged | PrClosed | PrMarkFailed | Fixed | MarkFailed | ChangesWanted | WaitBlocked | WaitChecks
    | RetryDeferred(coder: string) | ProgressGiveup | RetryProgress | RetrySame
    | EscalateDeferred(coder: string) | Escalate | Giveup | FixError

  datatype FixOutcome = FixOutcome(name: string, tag: FixTag)

  datatype MarkSent = MarkSent(name: string, status: MarkStatus)

  datatype FixState = FixState(objects: Objects, load: Load, marks: seq<MarkSent>, results: seq<FixOutcome>)

  datatype FixMove =
    | Ignore
    | Leave(tag: FixTag)
    | Settle(status: MarkStatus, done: FixTag, failed: FixTag)
    | Drop(tag: FixTag)
    | BlockAndDrop
    | BlockAndLeave
    | Remake(next: Workload, coder: Option<string>, tag: FixTag)

  // ----- Reading a fix Workload

  function OrElse(text: string, default: string): string {
    if text == "" then default else text
  }

  function AttemptNote(w: Workload): Option<int> {
    ParseInt(OrElse(NoteOr(w, Attempt, "1"), "1"))
  }

  function ProgressOf(w: Workload): int {
    match ParseInt(OrElse(NoteOr(w, Progress, "0"), "0"))
    case None => 0
    case Some(value) => value
  }

  /** The Workload carries a repo and a numeric PR, so Dispatch and GitHub can be asked about it. */
  predicate Keyed(w: Workload) {
    NoteOr(w, PrFixRepo, "") != "" && NoteOr(w, PrFixNumber, "") != "" && AllDigits(NoteOr(w, PrFixNumber, ""))
  }

  /** `_prfix_current_coder`: the agent on the first issue-fix step. */
  function CurrentCoder(steps: seq<Step>): Option<string> {
    if steps == [] then None
    else if steps[0].kind == IssueFix then steps[0].agent
    else CurrentCoder(steps[1..])
  }

  /** `pr_fix_coder_for`. */
  function FixCoderFor(lane: string, laneAgents: map<string, string>): (coder: string)
    ensures coder != ""
    ensures lane in laneAgents && laneAgents[lane] != "" ==> coder == laneAgents[lane]
    ensures (lane !in laneAgents || laneAgents[lane] == "") && WILDCARD in laneAgents && laneAgents[WILDCARD] != "" ==>
      coder == laneAgents[WILDCARD]
    ensures (forall key :: key in {lane, WILDCARD} && key in laneAgents ==> laneAgents[key] == "") ==> coder == DEFAULT_CODER
  {
    if lane in laneAgents && laneAgents[lane] != "" then laneAgents[lane]
    else if WILDCARD in laneAgents && laneAgents[WILDCARD] != "" then laneAgents[WILDCARD]
    else DEFAULT_CODER
  }

  /** `next_prfix_lane`. */
  function NextLane(lane: string): Option<string> {
    if lane == NORMAL then Some(ESCALATED) else None
  }

  // ----- Rendering the next Workload

  function Signed(notes: map<Note, string>, signature: string): map<Note, string> {
    if signature == "" then notes else notes[Signature := signature]
  }

  /** `rebuild_prfix_manifest`: the same Workload with another attempt number and a clean status. */
  function Rebuild(w: Workload, attempt: int, signature: string): Workload {
    Build.Manifest(w.name, w.createdBy, w.lane, Signed(w.notes[Attempt := IntText(attempt)], signature), w.spec)
  }

  function WithProgress(w: Workload, progress: int): Workload {
    w.(notes := w.notes[Progress := IntText(progress)])
  }

  function Swapped(steps: seq<Step>, coder: string): seq<Step> {
    seq(|steps|, i requires 0 <= i < |steps| =>
      if steps[i].kind == IssueFix then steps[i].(agent := Some(coder)) else steps[i])
  }

  /** `escalate_prfix_manifest`: first attempt on the next tier, with the other annotations carried over. */
  function OnNextTier(w: Workload, lane: string, coder: string): Workload {
    Rebuild(w, 1, "").(lane := lane, spec := w.spec.(pipeline := Swapped(w.spec.pipeline, coder)))
  }

  /** Puts another coder on every issue-fix step, in place. */
  method SwapCoder(steps: array<Step>, coder: string)
    modifies steps
    ensures steps[..] == Swapped(old(steps[..]), coder)
  {
    for i := 0 to steps.Length
      invariant forall k :: 0 <= k < i ==> steps[k] == Swapped(old(steps[..]), coder)[k]
      invariant forall k :: i <= k < steps.Length ==> steps[k] == old(steps[k])
    {
      if steps[i].kind == IssueFix {
        steps[i] := steps[i].(agent := Some(coder));
      }
    }
  }

  // ----- Deciding about one fix Workload

  /** The merge status read off a view of the pull request. */
  function StatusOf(view: Try<PrView>): Try<MergeStatus> {
    if view.Raised? then Raised else Returned(Classify(view.value))
  }

  /** The view that counts: the second one once a conflicting PR's branch was updated. */
  function LastView(a: FixAnswers): Try<PrView> {
    if a.probe.Returned? && Classify(a.probe.value) in {Dirty, Conflicting} && a.update == Yes then a.reprobe else a.probe
  }

  function LastProbe(w: Workload, a: FixAnswers): Try<MergeStatus> {
    if !Keyed(w) then Returned(MergeOk) else StatusOf(LastView(a))
  }

  function NewSignature(w: Workload, a: FixAnswers): string {
    if Keyed(w) && a.signature.Returned? then a.signature.value else ""
  }

  /** The failure surface changed since the last attempt. */
  predicate Progressed(w: Workload, a: FixAnswers) {
    var before, now := NoteOr(w, Signature, ""), NewSignature(w, a);
    before != "" && now != "" && before != now
  }

  predicate Full(coder: Option<string>, cfg: FixConfig, load: Load) {
    cfg.slots != map[] && coder.Some? && coder.value != "" && FreeSlots(coder.value, load, cfg.slots) <= 0
  }

  function SameTierMove(cfg: FixConfig, w: Workload, a: FixAnswers, attempt: int, load: Load): FixMove {
    var coder := CurrentCoder(w.spec.pipeline);
    if Full(coder, cfg, load) then Leave(RetryDeferred(coder.value))
    else if !Progressed(w, a) then Remake(Rebuild(w, attempt + 1, NewSignature(w, a)), coder, RetrySame)
    else if ProgressOf(w) + 1 > cfg.progressMax then BlockAndDrop
    else Remake(WithProgress(Rebuild(w, 1, NewSignature(w, a)), ProgressOf(w) + 1), coder, RetryProgress)
  }

  function NextTierMove(cfg: FixConfig, w: Workload, load: Load): FixMove {
    var lane := NextLane(w.lane);
    if lane.None? then BlockAndLeave
    else
      var coder := FixCoderFor(lane.value, cfg.laneAgents);
      if CurrentCoder(w.spec.pipeline) == Some(coder) then BlockAndLeave
      else if Full(Some(coder), cfg, load) then Leave(EscalateDeferred(coder))
      else Remake(OnNextTier(w, lane.value, coder), Some(coder), Escalate)
  }

  function RetryFixMove(cfg: FixConfig, w: Workload, a: FixAnswers, attempt: int, load: Load): FixMove {
    if attempt < cfg.maxAttempts then SameTierMove(cfg, w, a, attempt, load) else NextTierMove(cfg, w, load)
  }

  function DecideFix(cfg: FixConfig, w: Workload, a: FixAnswers, load: Load): FixMove {
    var attempt, probe := AttemptNote(w), LastProbe(w, a);
    if w.phase !in {Succeeded, Completed, Failed} then Ignore
    else if attempt.None? || probe.Raised? then Leave(FixError)
    else if Keyed(w) && probe.value == Merged then Settle(FIXED, PrMerged, PrMarkFailed)
    else if Keyed(w) && probe.value == ClosedPr then Settle(STALE, PrClosed, PrMarkFailed)
    else if Keyed(w) && probe.value == MergeOk && w.phase != Failed then Settle(FIXED, Fixed, MarkFailed)
    else if probe.value == ChangesRequested then Drop(ChangesWanted)
    else if probe.value == BlockedPr && attempt.value < cfg.maxAttempts then Leave(WaitBlocked)
    else if probe.value == ChecksPending && attempt.value < cfg.maxAttempts then Leave(WaitChecks)
    else RetryFixMove(cfg, w, a, attempt.value, load)
  }

  // ----- Carrying it out

  /** The cluster and load afterwards, the marks sent to Dispatch, and the tag reported, if any. */
  datatype FixEffect = FixEffect(objects: Objects, load: Load, marks: seq<MarkSent>, tag: Option<FixTag>)

  function MarkOf(w: Workload, status: MarkStatus): seq<MarkSent> {
    if Keyed(w) then [MarkSent(w.name, status)] else []
  }

  /** Deletes and reports tag, or an error when the delete raised. */
  function DeleteEffect(objects: Objects, load: Load, w: Workload, a: FixAnswers, marks: seq<MarkSent>, tag: FixTag): FixEffect {
    FixEffect(AfterDelete(objects, w.name, a.delete), load, marks, Some(if a.delete == Gone then tag else FixError))
  }

  function RemakeEffect(
    objects: Objects, load: Load, w: Workload, a: FixAnswers, next: Workload, coder: Option<string>, tag: FixTag): FixEffect
  {
    var deleted := AfterDelete(objects, w.name, a.delete);
    var created := AfterCreate(deleted, next, a.create);
    if a.delete != Gone then FixEffect(deleted, load, [], Some(FixError))
    else if a.create != Stored then FixEffect(created, load, [], Some(FixError))
    else FixEffect(created, if coder.Some? then Charge(load, coder.value) else load, [], Some(tag))
  }

  function Effect(objects: Objects, load: Load, w: Workload, a: FixAnswers, move: FixMove): FixEffect {
    match move
    case Ignore => FixEffect(objects, load, [], None)
    case Leave(tag) => FixEffect(objects, load, [], Some(tag))
    case Settle(status, done, failed) =>
      if a.mark == Yes then DeleteEffect(objects, load, w, a, MarkOf(w, status), done)
      else FixEffect(objects, load, MarkOf(w, status), Some(if a.mark == No then failed else FixError))
    case Drop(tag) => DeleteEffect(objects, load, w, a, [], tag)
    case BlockAndDrop =>
      if Keyed(w) && a.mark == Raises then FixEffect(objects, load, MarkOf(w, BLOCKED), Some(FixError))
      else DeleteEffect(objects, load, w, a, MarkOf(w, BLOCKED), ProgressGiveup)
    case BlockAndLeave =>
      FixEffect(objects, load, MarkOf(w, BLOCKED), Some(if Keyed(w) && a.mark == Raises then FixError else Giveup))
    case Remake(next, coder, tag) => RemakeEffect(objects, load, w, a, next, coder, tag)
  }

  function EffectOn(cfg: FixConfig, objects: Objects, load: Load, w: Workload, a: FixAnswers): FixEffect {
    Effect(objects, load, w, a, DecideFix(cfg, w, a, load))
  }

  function HandleFix(cfg: FixConfig, w: Workload, a: FixAnswers, st: FixState): FixState {
    var e := EffectOn(cfg, st.objects, st.load, w, a);
    FixState(e.objects, e.load, st.marks + e.marks,
      if e.tag.Some? then st.results + [FixOutcome(w.name, e.tag.value)] else st.results)
  }

  function FixPass(cfg: FixConfig, listed: seq<Workload>, answers: seq<FixAnswers>, st: FixState): FixState
    requires |answers| == |listed|
  {
    if listed == [] then st
    else
      var n := |listed| - 1;
      HandleFix(cfg, listed[n], answers[n], FixPass(cfg, listed[..n], answers[..n], st))
  }

  // ----- The queue of new fixes

  datatype FixItem = FixItem(
    repo: string, pr: int, issue: Option<int>, branch: string, lane: string, surface: string, reason: string, feedback: seq<string>)

  function LowerText(s: string): string {
    seq(|s|, i requires 0 <= i < |s| => Lower(s[i]))
  }

  /** Words separated by single spaces: `" ".join(s.split())`. */
  function Squeeze(s: string, started: bool, gap: bool): string {
    if s == "" then ""
    else if IsSpace(s[0]) then Squeeze(s[1..], started, started)
    else (if gap then " " else "") + [s[0]] + Squeeze(s[1..], true, false)
  }

  /** The kind of failure a signature starts with. */
  function SurfaceKind(surface: string): string {
    OrElse(LowerText(Strip(surface)), "unknown")
  }

  /** What a signature keeps of the first feedback line: lower case, single spaces, 160 characters. */
  function FeedbackHead(feedback: seq<string>): string {
    var head := if feedback == [] then "" else Squeeze(LowerText(Strip(feedback[0])), false, false);
    if head == "" then "no-feedback" else if |head| > 160 then head[..160] else head
  }

  /** `failure_signature`. */
  function FailureSignature(surface: string, feedback: seq<string>): (signature: string)
    ensures signature != ""
    ensures SurfaceKind(surface) <= signature && |signature| <= |SurfaceKind(surface)| + 162
  {
    SurfaceKind(surface) + ("::" + FeedbackHead(feedback))
  }

  function FixName(repo: string, pr: int): string {
    "prfix-" + LowerText(DashForSlash(repo)) + "-" + IntText(pr)
  }

  function FixNotes(item: FixItem): map<Note, string> {
    map[Attempt := IntText(1), PrFixRepo := item.repo, PrFixNumber := IntText(item.pr),
        Signature := FailureSignature(item.surface, item.feedback)]
  }

  function FixPayload(item: FixItem): Payload {
    Payload(item.repo, item.issue, Some(item.branch), None, None, None, false, false)
  }

  /** `build_fix_workload` at attempt 1: amend the PR's own branch, then verify it. */
  function BuildFix(item: FixItem, coder: string, prompt: string, render: Build.Render): Workload {
    var fix := "fix-" + IntText(item.pr);
    var code := Step(fix, IssueFix, Some(coder), [],
      FixPayload(item).(prompt := Some(prompt), reviseFromBranch := Some(item.branch), branchStrategy := Some("rebase"), allowOverwrite := true));
    var verify := Step("fixverify-" + IntText(item.pr), Verify, Some(Build.VERIFIER_AGENT), [fix], FixPayload(item));
    Build.Manifest(FixName(item.repo, item.pr), PrFixBridge, item.lane, FixNotes(item),
      Spec("fix PR #" + IntText(item.pr), item.repo, [], [code] + (if render.verifyEnabled then [verify] else []),
        None, [], None, None, None, false, render.selfGo, Build.GateProfileFor(item.repo, render.gateProfiles)))
  }

  datatype DrainTag = Unparseable | NoBranch | InFlight | CoderBusy(coder: string) | Created | DrainError

  datatype DrainState = DrainState(objects: Objects, load: Load, results: seq<DrainTag>)

  /** One queue element as parsed, the prompt assembled for it, and how its create went. */
  datatype Queued = Queued(item: Option<FixItem>, prompt: string, create: CreateReply)

  /** The cluster and load after one queue element, and the tag reported for it. */
  datatype DrainEffect = DrainEffect(objects: Objects, load: Load, tag: DrainTag)

  function DrainOne(
    cfg: FixConfig, render: Build.Render, q: Queued, existing: set<string>, objects: Objects, load: Load): DrainEffect
  {
    if q.item.None? then DrainEffect(objects, load, Unparseable)
    else
      var item := q.item.value;
      var coder := FixCoderFor(item.lane, cfg.laneAgents);
      if item.branch == "" then DrainEffect(objects, load, NoBranch)
      else if FixName(item.repo, item.pr) in existing then DrainEffect(objects, load, InFlight)
      else if Full(Some(coder), cfg, load) then DrainEffect(objects, load, CoderBusy(coder))
      else
        var created := AfterCreate(objects, BuildFix(item, coder, q.prompt, render), q.create);
        if q.create == Stored then DrainEffect(created, Charge(load, coder), Created)
        else DrainEffect(created, load, DrainError)
  }

  function Drain(cfg: FixConfig, render: Build.Render, queue: seq<Queued>, existing: set<string>, st: DrainState): DrainState {
    if queue == [] then st
    else
      var n := |queue| - 1;
      var before := Drain(cfg, render, queue[..n], existing, st);
      var e := DrainOne(cfg, render, queue[n], existing, before.objects, before.load);
      DrainState(e.objects, e.load, before.results + [e.tag])
  }
}
