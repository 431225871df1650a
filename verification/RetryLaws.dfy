/** What the issue retry pass keeps: no Workload is lost unaccounted, budgets only fall, and a lineage stays itself. */
module RetryLaws {
  import opened Outcomes
  import opened Slug
  import opened Workloads
  import opened Coders
  import opened Build
  import opened Retry

  // ----- One Workload

  /** The name is the one the bridge would give the issue the Workload stands for. */
  predicate IssueNamed(w: Workload) {
    var item := ItemFromWorkload(w);
    w.name == WorkloadName(item.repo, item.issueNumber)
  }

  /** Both stand for the same issue under the same name, and so for the same task branch. */
  predicate SameIssue(w: Workload, v: Workload) {
    var i, j := ItemFromWorkload(w), ItemFromWorkload(v);
    w.name == v.name && i.repo == j.repo && i.issueNumber == j.issueNumber && i.intent == j.intent
  }

  /** next is the retry of w: same issue, one counter up by one, the other untouched, and safe to push. */
  predicate Succeeds(w: Workload, next: Workload, infra: bool) {
    && SameIssue(w, next)
    && AttemptOf(next) == AttemptOf(w) + (if infra then 0 else 1)
    && InfraAttemptOf(next) == InfraAttemptOf(w) + (if infra then 1 else 0)
    && OverwritesOnlyWhatItRevises(next)
    && next.createdBy == IssueBridge && next.phase == NoPhase
  }

  function Above(cap: int, n: int): nat {
    if cap > n then cap - n else 0
  }

  /** How many more times a Workload can be recreated. */
  function Budget(maxAttempts: int, infraMax: int, w: Workload): nat {
    Above(maxAttempts, AttemptOf(w)) + Above(infraMax, InfraAttemptOf(w))
  }

  /** The issue was handed to a human or to another lane by a hook that reported success. */
  predicate HandedOff(tag: Tag, a: Answers) {
    match tag
    case GiveupInfra => a.parkInfra == Yes
    case NogoParked => a.parkedAtExhausted == IsParked || a.parkExhausted == Yes
    case Giveup => a.parkedAtExhausted == IsParked || a.parkExhausted == Yes
    case Escalated => a.escalate == Yes
    case EscalateError => a.escalate == Yes
    case _ => false
  }

  /** The exceptions: a retirement without a park, and a retry whose delete worked but whose create did not. */
  predicate Lost(tag: Tag, a: Answers) {
    || (tag == NogoParkFailed && a.delete != RaisedKept)
    || (tag == RetryError && (a.delete == RaisedGone || (a.delete == Gone && a.create == RaisedAbsent)))
  }

  /** What a decision can be. */
  predicate Sound(cfg: RetryConfig, w: Workload, a: Answers, move: Move) {
    match move
    case Keep(tag) => tag !in {NogoParked, NogoParkFailed, Escalated, RetryError, RetryInfra, RetryVerdict}
    case Retire(tag) =>
      tag in {GiveupInfra, NogoParked, NogoParkFailed, Giveup} && (tag == NogoParkFailed || HandedOff(tag, a))
    case HandOver => a.escalate == Yes
    case Recreate(next, coder, infra) =>
      && infra == IsInfra(w, a)
      && Succeeds(w, next, infra)
      && WithinBudget(cfg, w, infra)
    case Abort => true
  }

  lemma RetryReadsBack(cfg: RetryConfig, w: Workload, a: Answers, infra: bool)
    requires IssueNamed(w)
    ensures var next := RetryManifest(cfg, w, a, infra);
      && SameIssue(w, next)
      && AttemptOf(next) == AttemptOf(w) + (if infra then 0 else 1)
      && InfraAttemptOf(next) == InfraAttemptOf(w) + (if infra then 1 else 0)
  {
    var item := CurrentItem(cfg, w, a);
    var attempt := if infra then AttemptOf(w) else AttemptOf(w) + 1;
    var infraAttempt := if infra then InfraAttemptOf(w) + 1 else InfraAttemptOf(w);
    var revise := if Pushed(a) == Yes then BranchName(item.repo, item.issueNumber) else "";
    BuiltWorkloadReadsBack(item, attempt, infraAttempt, RetryCoder(cfg, item), a.feedback, "", revise, cfg.render);
  }

  /** A retry may overwrite its task branch exactly when there is evidence that the branch was pushed. */
  lemma RetryIsSafe(cfg: RetryConfig, w: Workload, a: Answers, infra: bool)
    ensures OverwritesOnlyWhatItRevises(RetryManifest(cfg, w, a, infra))
    ensures RetryManifest(cfg, w, a, infra).spec.allowOverwrite <==>
      a.pushTasks.Returned? && (a.remote == Exists || exists t :: t in a.pushTasks.value && ShowsPush(t))
  {
    var item := CurrentItem(cfg, w, a);
    var attempt := if infra then AttemptOf(w) else AttemptOf(w) + 1;
    var infraAttempt := if infra then InfraAttemptOf(w) + 1 else InfraAttemptOf(w);
    var revise := if Pushed(a) == Yes then BranchName(item.repo, item.issueNumber) else "";
    BuiltWorkloadIsSafe(item, attempt, infraAttempt, RetryCoder(cfg, item), a.feedback, "", revise, cfg.render);
  }

  lemma RetrySucceeds(cfg: RetryConfig, w: Workload, a: Answers, infra: bool)
    requires IssueNamed(w)
    ensures Succeeds(w, RetryManifest(cfg, w, a, infra), infra)
  {
    RetryReadsBack(cfg, w, a, infra);
    RetryIsSafe(cfg, w, a, infra);
  }

  lemma ExhaustedIsSound(cfg: RetryConfig, w: Workload, a: Answers)
    ensures Sound(cfg, w, a, ExhaustedMove(cfg, w, a))
  {
  }

  predicate WithinBudget(cfg: RetryConfig, w: Workload, infra: bool) {
    if infra then InfraAttemptOf(w) < cfg.infraMaxAttempts else AttemptOf(w) < cfg.maxAttempts
  }

  lemma RetryMoveIsSound(cfg: RetryConfig, w: Workload, a: Answers, load: Load)
    requires IssueNamed(w) && WithinBudget(cfg, w, IsInfra(w, a))
    ensures Sound(cfg, w, a, RetryMove(cfg, w, a, load))
  {
    RetrySucceeds(cfg, w, a, IsInfra(w, a));
  }

  lemma DecisionIsSound(cfg: RetryConfig, w: Workload, a: Answers, load: Load)
    requires IssueNamed(w)
    ensures Sound(cfg, w, a, Decide(cfg, w, a, load))
  {
    ExhaustedIsSound(cfg, w, a);
    if WithinBudget(cfg, w, IsInfra(w, a)) {
      RetryMoveIsSound(cfg, w, a, load);
    }
  }

  /** The object under w's name is w itself, or its retry with less budget left. */
  predicate StillThere(cfg: RetryConfig, w: Workload, a: Answers, now: Workload) {
    now == w ||
    (Succeeds(w, now, IsInfra(w, a)) &&
      Budget(cfg.maxAttempts, cfg.infraMaxAttempts, now) < Budget(cfg.maxAttempts, cfg.infraMaxAttempts, w))
  }

  /** Where w stands after the pass handled it. */
  ghost predicate Accounted(cfg: RetryConfig, w: Workload, a: Answers, after: Objects, results: seq<Outcome>) {
    if w.name in after then StillThere(cfg, w, a, after[w.name])
    else exists tag :: Outcome(w.name, tag) in results && (HandedOff(tag, a) || Lost(tag, a))
  }

  predicate Untouched(before: Objects, after: Objects, n: string) {
    (n in before <==> n in after) && (n in before ==> before[n] == after[n])
  }

  /** The object under the name and the tag agree on what became of w. */
  predicate Explains(cfg: RetryConfig, w: Workload, a: Answers, e: Effect) {
    && (w.name in e.objects ==> StillThere(cfg, w, a, e.objects[w.name]))
    && (w.name !in e.objects ==> e.tag.Some? && (HandedOff(e.tag.value, a) || Lost(e.tag.value, a)))
    && (e.tag.Some? && Lost(e.tag.value, a) ==> w.name !in e.objects && !HandedOff(e.tag.value, a))
  }

  lemma ReplacedLeaves(objects: Objects, load: Load, name: string, a: Answers, next: Workload, coder: string, infra: bool)
    requires next.name == name
    ensures Replaced(objects, load, name, a, next, coder, infra).objects == AfterRemake(objects, next, a.delete, a.create)
  {
  }

  lemma ReplacedExplains(
    cfg: RetryConfig, w: Workload, a: Answers, objects: Objects, load: Load, next: Workload, coder: string, infra: bool)
    requires w.name in objects && objects[w.name] == w && next.name == w.name && StillThere(cfg, w, a, next)
    ensures Explains(cfg, w, a, Replaced(objects, load, w.name, a, next, coder, infra))
  {
    ReplacedLeaves(objects, load, w.name, a, next, coder, infra);
    RemadeEntry(objects, w, next, a.delete, a.create);
  }

  lemma CarryExplains(cfg: RetryConfig, w: Workload, a: Answers, objects: Objects, load: Load, move: Move)
    requires w.name in objects && objects[w.name] == w && Sound(cfg, w, a, move)
    ensures Explains(cfg, w, a, Carry(objects, load, w.name, a, move))
  {
    match move
    case Recreate(next, coder, infra) => ReplacedExplains(cfg, w, a, objects, load, next, coder, infra);
    case Keep(tag) =>
    case Retire(tag) =>
    case HandOver =>
    case Abort =>
  }

  lemma CarryFrame(w: Workload, a: Answers, objects: Objects, load: Load, move: Move, n: string)
    requires n != w.name && (move.Recreate? ==> move.next.name == w.name)
    ensures Untouched(objects, Carry(objects, load, w.name, a, move).objects, n)
  {
  }

  /** Conservation: for every answer of every hook, a Failed Workload is kept, replaced under its own name, or accounted for. */
  lemma HandleConserves(cfg: RetryConfig, w: Workload, a: Answers, st: PassState)
    requires w.name in st.objects && st.objects[w.name] == w && IssueNamed(w)
    ensures var after := Handle(cfg, w, a, st);
      Accounted(cfg, w, a, after.objects, after.results)
  {
    DecisionIsSound(cfg, w, a, st.load);
    CarryExplains(cfg, w, a, st.objects, st.load, Decide(cfg, w, a, st.load));
    var after := Handle(cfg, w, a, st);
    if |after.results| > |st.results| {
      assert after.results[|st.results|] in after.results;
    }
  }

  lemma HandleFrame(cfg: RetryConfig, w: Workload, a: Answers, st: PassState, n: string)
    requires n != w.name && IssueNamed(w)
    ensures Untouched(st.objects, Handle(cfg, w, a, st).objects, n)
  {
    DecisionIsSound(cfg, w, a, st.load);
    CarryFrame(w, a, st.objects, st.load, Decide(cfg, w, a, st.load), n);
  }

  /** A second NO-GO whose park failed, although its Workload is deleted all the same. */
  predicate DroppedUnparked(w: Workload, a: Answers) {
    EarlyStop(w, a).None? && SaidNoTwice(w, a) && !ExhaustedParked(a) && a.delete != RaisedKept
  }

  predicate RetryCoderFull(cfg: RetryConfig, w: Workload, a: Answers, load: Load) {
    cfg.slots != map[] && FreeSlots(RetryCoder(cfg, CurrentItem(cfg, w, a)), load, cfg.slots) <= 0
  }

  /** A retry whose delete took effect and whose create did not. */
  predicate DroppedInRetry(cfg: RetryConfig, w: Workload, a: Answers, load: Load) {
    && ReachesRetry(cfg, w, a) && a.pushTasks.Returned? && !RetryCoderFull(cfg, w, a, load)
    && (a.delete == RaisedGone || (a.delete == Gone && a.create == RaisedAbsent))
  }

  predicate DecidesToDrop(cfg: RetryConfig, w: Workload, a: Answers, load: Load) {
    DroppedUnparked(w, a) || DroppedInRetry(cfg, w, a, load)
  }

  predicate Loses(e: Effect, a: Answers) {
    e.tag.Some? && Lost(e.tag.value, a)
  }

  lemma ExhaustedNeverLoses(cfg: RetryConfig, w: Workload, a: Answers, objects: Objects, load: Load)
    ensures !Loses(Carry(objects, load, w.name, a, ExhaustedMove(cfg, w, a)), a)
  {
  }

  lemma ReplacedLoses(objects: Objects, load: Load, name: string, a: Answers, next: Workload, coder: string, infra: bool)
    ensures Loses(Replaced(objects, load, name, a, next, coder, infra), a) <==>
      a.delete == RaisedGone || (a.delete == Gone && a.create == RaisedAbsent)
  {
  }

  lemma RetryLoses(cfg: RetryConfig, w: Workload, a: Answers, objects: Objects, load: Load)
    requires ReachesRetry(cfg, w, a)
    ensures Loses(Carry(objects, load, w.name, a, RetryMove(cfg, w, a, load)), a) <==> DroppedInRetry(cfg, w, a, load)
  {
    var move := RetryMove(cfg, w, a, load);
    if move.Recreate? {
      ReplacedLoses(objects, load, w.name, a, move.next, move.coder, move.infra);
    }
  }

  /** The tags that name a loss are reported exactly under the guards above. */
  lemma LostTagExactly(cfg: RetryConfig, w: Workload, a: Answers, objects: Objects, load: Load)
    ensures Loses(EffectOn(cfg, w, a, objects, load), a) <==> DecidesToDrop(cfg, w, a, load)
  {
    if ReachesRetry(cfg, w, a) {
      RetryLoses(cfg, w, a, objects, load);
    } else {
      ExhaustedNeverLoses(cfg, w, a, objects, load);
    }
  }

  /** A Workload vanishes without its issue being handed to anyone exactly in two cases, both told by the answers alone. */
  lemma LostExactly(cfg: RetryConfig, w: Workload, a: Answers, objects: Objects, load: Load)
    requires w.name in objects && objects[w.name] == w && IssueNamed(w)
    ensures var e := EffectOn(cfg, w, a, objects, load);
      w.name !in e.objects && !(e.tag.Some? && HandedOff(e.tag.value, a)) <==> DecidesToDrop(cfg, w, a, load)
  {
    DecisionIsSound(cfg, w, a, load);
    CarryExplains(cfg, w, a, objects, load, Decide(cfg, w, a, load));
    LostTagExactly(cfg, w, a, objects, load);
  }

  /** An exception escapes exactly when a Workload that gets as far as a retry has an unreadable task list. */
  lemma AbortsExactly(cfg: RetryConfig, w: Workload, a: Answers, load: Load)
    ensures Decide(cfg, w, a, load) == Abort <==> ReachesRetry(cfg, w, a) && a.pushTasks.Raised?
  {
  }

  // ----- When the attempts are used up

  /** Nothing stops the Workload early, its failure is its own, it did not say no twice, and its attempts are used up. */
  predicate Exhausted(cfg: RetryConfig, w: Workload, a: Answers) {
    EarlyStop(w, a).None? && !IsInfra(w, a) && !SaidNoTwice(w, a) && AttemptOf(w) >= cfg.maxAttempts
  }

  /** The lane Dispatch has the issue on now: its entry in the index, else the label it was claimed under. */
  function LaneNow(cfg: RetryConfig, w: Workload): string {
    var key := (w.spec.repo, if w.spec.issues == [] then IssueFromName(w.name) else w.spec.issues[0]);
    if key !in cfg.laneIndex || cfg.laneIndex[key] == "" then w.lane else cfg.laneIndex[key]
  }

  /** The issue's id can be told, from the Workload or from a queue. */
  predicate IdKnown(w: Workload, a: Answers) {
    (IssueId in w.notes && w.notes[IssueId] != "") || a.foundId != ""
  }

  /** There is somewhere else to hand the issue to, and an id to name it by. */
  predicate CanMoveOn(cfg: RetryConfig, w: Workload, a: Answers) {
    cfg.escalationLane != "" && LaneNow(cfg, w) != cfg.escalationLane && IdKnown(w, a)
  }

  lemma CurrentItemIs(cfg: RetryConfig, w: Workload, a: Answers)
    ensures var item := CurrentItem(cfg, w, a);
      item.lane == LaneNow(cfg, w) && item.repo == w.spec.repo && (item.issueId != "" <==> IdKnown(w, a))
  {
  }

  lemma ExhaustedDecides(cfg: RetryConfig, w: Workload, a: Answers, load: Load)
    requires Exhausted(cfg, w, a)
    ensures Decide(cfg, w, a, load) == ExhaustedMove(cfg, w, a)
  {
  }

  /**
   * A used-up Workload goes to the escalation lane exactly when there is one, the issue is not on it already, its id is known
   * and Dispatch agreed; when nothing could be asked, or Dispatch declined, it is retired exactly when it is known parked.
   */
  lemma EscalatesExactly(cfg: RetryConfig, w: Workload, a: Answers, load: Load)
    requires Exhausted(cfg, w, a)
    ensures var move := Decide(cfg, w, a, load);
      var parked := a.parkedAtExhausted == IsParked || (a.parkedAtExhausted in {NotParked, Unknown} && a.parkExhausted == Yes);
      && (move == HandOver <==> CanMoveOn(cfg, w, a) && a.escalate == Yes)
      && (move == Keep(EscalateError) <==> CanMoveOn(cfg, w, a) && a.escalate == Raises)
      && (!CanMoveOn(cfg, w, a) || a.escalate == No ==> move == if parked then Retire(Giveup) else Keep(Giveup))
  {
    CurrentItemIs(cfg, w, a);
    ExhaustedDecides(cfg, w, a, load);
  }

  /** On the escalation lane there is nobody left to hand it to: what Dispatch would answer makes no difference. */
  lemma EscalatedOnlyOnce(cfg: RetryConfig, w: Workload, a: Answers, load: Load, answer: Reply)
    requires Exhausted(cfg, w, a) && LaneNow(cfg, w) == cfg.escalationLane
    ensures var move := Decide(cfg, w, a, load);
      && move == Decide(cfg, w, a.(escalate := answer), load)
      && (move == Retire(Giveup) || move == Keep(Giveup))
  {
    EscalatesExactly(cfg, w, a, load);
    EscalatesExactly(cfg, w, a.(escalate := answer), load);
  }

  // ----- The whole pass

  predicate DistinctListing(listed: seq<Workload>) {
    forall i, j :: 0 <= i < j < |listed| ==> listed[i].name != listed[j].name
  }

  /** The listing shows what the cluster holds, one entry a name. */
  ghost predicate Shows(listed: seq<Workload>, objects: Objects) {
    && DistinctListing(listed)
    && forall i :: 0 <= i < |listed| ==> listed[i].name in objects && objects[listed[i].name] == listed[i] && IssueNamed(listed[i])
  }

  predicate Names(listed: seq<Workload>, n: string) {
    exists i :: 0 <= i < |listed| && listed[i].name == n
  }

  lemma {:induction false} PassFrame(cfg: RetryConfig, listed: seq<Workload>, answers: seq<Answers>, st: PassState, n: string)
    requires |answers| == |listed| && !Names(listed, n)
    requires forall i :: 0 <= i < |listed| ==> IssueNamed(listed[i])
    ensures Untouched(st.objects, Pass(cfg, listed, answers, st).objects, n)
  {
    if listed != [] {
      var k := |listed| - 1;
      var before := Pass(cfg, listed[..k], answers[..k], st);
      if Names(listed[..k], n) {
        NamesGrow(listed, k, n);
      }
      PassFrame(cfg, listed[..k], answers[..k], st, n);
      HandleFrame(cfg, listed[k], answers[k], before, n);
    }
  }

  lemma ShowsPrefix(listed: seq<Workload>, k: nat, objects: Objects)
    requires Shows(listed, objects) && k < |listed|
    ensures Shows(listed[..k], objects) && !Names(listed[..k], listed[k].name)
    ensures IssueNamed(listed[k]) && forall i :: 0 <= i < k ==> listed[i].name != listed[k].name
  {
  }

  lemma NamesGrow(listed: seq<Workload>, k: nat, n: string)
    requires k <= |listed| && Names(listed[..k], n)
    ensures Names(listed, n)
  {
    var i :| 0 <= i < k && listed[..k][i].name == n;
    assert listed[i].name == n;
  }

  /** The pass goes on to the next Workload unless an exception already ended it. */
  function Continue(cfg: RetryConfig, w: Workload, a: Answers, st: PassState): PassState {
    if st.aborted then st else Handle(cfg, w, a, st)
  }

  lemma AccountedPersists(cfg: RetryConfig, w: Workload, a: Answers, st: PassState, other: Workload, b: Answers)
    requires Accounted(cfg, w, a, st.objects, st.results) && other.name != w.name && IssueNamed(other)
    ensures var after := Continue(cfg, other, b, st); Accounted(cfg, w, a, after.objects, after.results)
  {
    HandleFrame(cfg, other, b, st, w.name);
  }

  lemma PassSnoc(cfg: RetryConfig, listed: seq<Workload>, answers: seq<Answers>, st: PassState, k: nat)
    requires |answers| == |listed| == k + 1
    ensures Pass(cfg, listed, answers, st) == Continue(cfg, listed[k], answers[k], Pass(cfg, listed[..k], answers[..k], st))
  {
  }

  lemma LastConserves(cfg: RetryConfig, listed: seq<Workload>, answers: seq<Answers>, st: PassState)
    requires |answers| == |listed| && Shows(listed, st.objects) && listed != []
    ensures var k := |listed| - 1; var after := Pass(cfg, listed, answers, st);
      Accounted(cfg, listed[k], answers[k], after.objects, after.results)
  {
    var k := |listed| - 1;
    var before := Pass(cfg, listed[..k], answers[..k], st);
    ShowsPrefix(listed, k, st.objects);
    PassFrame(cfg, listed[..k], answers[..k], st, listed[k].name);
    if !before.aborted {
      HandleConserves(cfg, listed[k], answers[k], before);
    }
  }

  /** What is accounted for before the last Workload is handled stays so. */
  lemma EarlierConserves(cfg: RetryConfig, listed: seq<Workload>, answers: seq<Answers>, st: PassState, i: nat, k: nat)
    requires |answers| == |listed| == k + 1 && Shows(listed, st.objects) && i < k
    requires var before := Pass(cfg, listed[..k], answers[..k], st); Accounted(cfg, listed[i], answers[i], before.objects, before.results)
    ensures var after := Pass(cfg, listed, answers, st); Accounted(cfg, listed[i], answers[i], after.objects, after.results)
  {
    AccountedPersists(cfg, listed[i], answers[i], Pass(cfg, listed[..k], answers[..k], st), listed[k], answers[k]);
    PassSnoc(cfg, listed, answers, st, k);
  }

  /** Every listed Workload is accounted for at the end of the pass, even one an exception cut short. */
  lemma {:induction false} PassConserves(cfg: RetryConfig, listed: seq<Workload>, answers: seq<Answers>, st: PassState, i: nat)
    requires |answers| == |listed| && Shows(listed, st.objects) && i < |listed|
    ensures var after := Pass(cfg, listed, answers, st);
      Accounted(cfg, listed[i], answers[i], after.objects, after.results)
  {
    var k := |listed| - 1;
    if i < k {
      ShowsPrefix(listed, k, st.objects);
      PassConserves(cfg, listed[..k], answers[..k], st, i);
      EarlierConserves(cfg, listed, answers, st, i, k);
    } else {
      LastConserves(cfg, listed, answers, st);
    }
  }

  // ----- A pass that an exception ends

  predicate AbortsOn(cfg: RetryConfig, w: Workload, a: Answers) {
    ReachesRetry(cfg, w, a) && a.pushTasks.Raised?
  }

  predicate SomeAborts(cfg: RetryConfig, listed: seq<Workload>, answers: seq<Answers>)
    requires |answers| == |listed|
  {
    exists i :: 0 <= i < |listed| && AbortsOn(cfg, listed[i], answers[i])
  }

  lemma SomeAbortsSnoc(cfg: RetryConfig, listed: seq<Workload>, answers: seq<Answers>, n: nat)
    requires |answers| == |listed| == n + 1
    ensures SomeAborts(cfg, listed, answers) <==> SomeAborts(cfg, listed[..n], answers[..n]) || AbortsOn(cfg, listed[n], answers[n])
  {
    if SomeAborts(cfg, listed[..n], answers[..n]) {
      var i :| 0 <= i < n && AbortsOn(cfg, listed[..n][i], answers[..n][i]);
      assert AbortsOn(cfg, listed[i], answers[i]);
    }
    if SomeAborts(cfg, listed, answers) {
      var i :| 0 <= i < n + 1 && AbortsOn(cfg, listed[i], answers[i]);
      assert i < n ==> AbortsOn(cfg, listed[..n][i], answers[..n][i]);
    }
  }

  /** The pass ends early exactly when some listed Workload reaches its retry with an unreadable task list. */
  lemma {:induction false} PassAbortsExactly(cfg: RetryConfig, listed: seq<Workload>, answers: seq<Answers>, st: PassState)
    requires |answers| == |listed| && !st.aborted
    ensures Pass(cfg, listed, answers, st).aborted <==> SomeAborts(cfg, listed, answers)
  {
    if listed != [] {
      var n := |listed| - 1;
      PassAbortsExactly(cfg, listed[..n], answers[..n], st);
      AbortsExactly(cfg, listed[n], answers[n], Pass(cfg, listed[..n], answers[..n], st).load);
      PassSnoc(cfg, listed, answers, st, n);
      SomeAbortsSnoc(cfg, listed, answers, n);
    }
  }

  predicate FirstAbort(cfg: RetryConfig, listed: seq<Workload>, answers: seq<Answers>, first: nat)
    requires |answers| == |listed|
  {
    && first < |listed| && AbortsOn(cfg, listed[first], answers[first])
    && forall i :: 0 <= i < first ==> !AbortsOn(cfg, listed[i], answers[i])
  }

  lemma StopsAtFirst(cfg: RetryConfig, listed: seq<Workload>, answers: seq<Answers>, st: PassState, first: nat)
    requires |answers| == |listed| && !st.aborted && FirstAbort(cfg, listed, answers, first)
    ensures var before := Pass(cfg, listed[..first], answers[..first], st);
      !before.aborted && Pass(cfg, listed, answers, st) == before.(aborted := true)
  {
    var prefix, replies := listed[..first], answers[..first];
    PassAbortsExactly(cfg, prefix, replies, st);
    AbortsExactly(cfg, listed[first], answers[first], Pass(cfg, prefix, replies, st).load);
    assert listed[..first + 1][..first] == prefix && answers[..first + 1][..first] == replies;
    AbortedPassStays(cfg, listed, answers, st, first + 1);
  }

  /** The first Workload the exception comes from takes the rest down: it and all after it stay as they were listed. */
  lemma AbortLeavesTheRest(
    cfg: RetryConfig, listed: seq<Workload>, answers: seq<Answers>, st: PassState, first: nat, k: nat)
    requires |answers| == |listed| && Shows(listed, st.objects) && !st.aborted
    requires first <= k < |listed| && FirstAbort(cfg, listed, answers, first)
    ensures var after := Pass(cfg, listed, answers, st);
      && after.aborted && |after.results| == |st.results| + first
      && listed[k].name in after.objects && after.objects[listed[k].name] == listed[k]
  {
    var prefix, replies := listed[..first], answers[..first];
    StopsAtFirst(cfg, listed, answers, st, first);
    forall i | 0 <= i < first ensures prefix[i].name != listed[k].name {
      assert listed[i].name != listed[k].name;
    }
    PassFrame(cfg, prefix, replies, st, listed[k].name);
    OneResultEach(cfg, prefix, replies, st);
  }

  lemma {:induction false} OneResultEach(cfg: RetryConfig, listed: seq<Workload>, answers: seq<Answers>, st: PassState)
    requires |answers| == |listed| && !st.aborted && !Pass(cfg, listed, answers, st).aborted
    ensures |Pass(cfg, listed, answers, st).results| == |st.results| + |listed|
  {
    if listed != [] {
      OneResultEach(cfg, listed[..|listed| - 1], answers[..|listed| - 1], st);
    }
  }

  /** One unreadable task list does end the pass: a Workload on its first attempts with budget left, and nothing said about it. */
  lemma UnreadableTasksAbort(cfg: RetryConfig, w: Workload, a: Answers, st: PassState)
    requires cfg.maxAttempts > 1 && AttemptOf(w) == 1 && !w.executorError && !st.aborted
    requires a.issue == IsOpen && a.tasks.Raised? && a.declared == Returned(None) && a.pushTasks.Raised?
    ensures Pass(cfg, [w], [a], st) == st.(aborted := true)
  {
    assert [w][..0] == [] && [a][..0] == [];
  }
}
