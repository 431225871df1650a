/** What the tasks of a Failed Workload say, field by field, and what the retry pass makes of it, case by case. */
module Verdicts {
  import opened Outcomes
  import opened Text
  import opened Slug
  import opened Workloads
  import opened Coders
  import opened Build
  import opened Retry
  import opened RetryLaws

  // ----- The tasks

  predicate Codes(t: Task) {
    t.kind in {IssueFix, Code}
  }

  /** Some coding task said no. */
  predicate SaidNo(tasks: seq<Task>) {
    exists i :: 0 <= i < |tasks| && Codes(tasks[i]) && tasks[i].verdict == NoGo
  }

  /** A harness rail turned a clean review's GO into a NO-GO. */
  predicate RailTook(t: Task) {
    && t.kind == Review && t.verdict == NoGo && t.claimedVerdict == Go && !t.hasFindings
    && (t.demotedBy == "issueAsk" || t.demotedBy == "scope-overlap")
  }

  predicate SomeRailTook(tasks: seq<Task>) {
    exists i :: 0 <= i < |tasks| && RailTook(tasks[i])
  }

  predicate SomeErrored(tasks: seq<Task>) {
    exists i :: 0 <= i < |tasks| && tasks[i].executorError
  }

  /** It opened a pull request, was reviewed, said GO, or had its push turned down. */
  predicate Pushed(t: Task) {
    t.pullRequest || t.pushRejected || (t.kind == Review && t.verdict != NoVerdict) || (Codes(t) && t.verdict == Go)
  }

  lemma TaskSays(t: Task)
    ensures DemotedByRail(t) <==> RailTook(t)
    ensures IsCoding(t) <==> Codes(t)
    ensures ShowsPush(t) <==> Pushed(t)
  {
  }

  lemma SaysNo(tasks: seq<Task>)
    ensures CoderSaidNo(tasks) <==> SaidNo(tasks)
  {
    if CoderSaidNo(tasks) {
      var t :| t in tasks && IsCoding(t) && t.verdict == NoGo;
      TaskSays(t);
      var i :| 0 <= i < |tasks| && tasks[i] == t;
    }
    if SaidNo(tasks) {
      var i :| 0 <= i < |tasks| && Codes(tasks[i]) && tasks[i].verdict == NoGo;
      TaskSays(tasks[i]);
    }
  }

  lemma RailSays(tasks: seq<Task>)
    ensures RailDemoted(tasks) <==> SomeRailTook(tasks)
  {
    if RailDemoted(tasks) {
      var t :| t in tasks && DemotedByRail(t);
      TaskSays(t);
      var i :| 0 <= i < |tasks| && tasks[i] == t;
      assert RailTook(tasks[i]);
    }
    if SomeRailTook(tasks) {
      var i :| 0 <= i < |tasks| && RailTook(tasks[i]);
      TaskSays(tasks[i]);
      assert tasks[i] in tasks && DemotedByRail(tasks[i]);
    }
  }

  lemma TasksSay(tasks: seq<Task>)
    ensures CoderSaidNo(tasks) <==> SaidNo(tasks)
    ensures RailDemoted(tasks) <==> SomeRailTook(tasks)
    ensures AnyExecutorError(tasks) <==> SomeErrored(tasks)
    ensures forall t :: t in tasks ==> (ShowsPush(t) <==> Pushed(t))
  {
    SaysNo(tasks);
    RailSays(tasks);
    forall t | t in tasks ensures ShowsPush(t) <==> Pushed(t) {
      TaskSays(t);
    }
  }

  /** The three reasons a coder can give, in any case and with space around them. */
  lemma ReadsExactly(s: string)
    ensures ReadEscalation(s) ==
      match UpperText(Strip(s))
      case "DESIGN-DECISION" => Some(DesignDecision)
      case "NO-TECHNICAL-FIX" => Some(NoTechnicalFix)
      case "BUDGET-EXHAUSTED" => Some(BudgetExhausted)
      case _ => None
  {
  }

  predicate Declares(t: Task, e: Escalation) {
    Codes(t) && ReadEscalation(t.escalation) == Some(e)
  }

  /** The first coding task to give a reason that can be read gives this one. */
  predicate FirstDeclares(tasks: seq<Task>, e: Escalation, i: int) {
    0 <= i < |tasks| && Declares(tasks[i], e)
    && forall j :: 0 <= j < i && Codes(tasks[j]) ==> ReadEscalation(tasks[j].escalation) == None
  }

  /** A task that gives none leaves it to the others. */
  lemma FirstDeclaresInRest(tasks: seq<Task>, e: Escalation, i: int)
    requires tasks != [] && !(Codes(tasks[0]) && ReadEscalation(tasks[0].escalation).Some?)
    ensures FirstDeclares(tasks[1..], e, i) <==> FirstDeclares(tasks, e, i + 1)
    ensures !FirstDeclares(tasks, e, 0)
  {
    var rest := tasks[1..];
    assert forall j :: 0 <= j < |rest| ==> rest[j] == tasks[j + 1];
    assert forall j :: 0 < j < |tasks| ==> tasks[j] == rest[j - 1];
  }

  /** The first coding task that gives one counts. */
  lemma {:induction false} DeclaresExactly(tasks: seq<Task>, e: Escalation)
    ensures DeclaredEscalation(tasks) == Some(e) <==> exists i :: FirstDeclares(tasks, e, i)
  {
    if tasks != [] {
      if Codes(tasks[0]) && ReadEscalation(tasks[0].escalation).Some? {
        if Declares(tasks[0], e) { assert FirstDeclares(tasks, e, 0); }
      } else {
        DeclaresExactly(tasks[1..], e);
        if i :| FirstDeclares(tasks[1..], e, i) {
          FirstDeclaresInRest(tasks, e, i);
        }
        if i :| FirstDeclares(tasks, e, i) {
          FirstDeclaresInRest(tasks, e, i - 1);
        }
      }
    }
  }

  // ----- The decision

  /** The tasks as far as they could be read; unreadable ones say nothing. */
  function Told(a: Answers): seq<Task> {
    match a.tasks case Returned(tasks) => tasks case Raised => []
  }

  /** The failure is the infrastructure's. */
  predicate NotItsFault(w: Workload, a: Answers) {
    w.executorError || SomeErrored(Told(a))
  }

  /** The issue is parked, or a park of it is reported now. */
  predicate Settled(found: ParkedReply, parked: Reply) {
    found == IsParked || parked == Yes
  }

  /** Someone is asked for by name, other than for want of budget, and the issue is parked for it. */
  predicate HumanAsked(a: Answers) {
    && a.declared.Returned? && a.declared.value in {Some(DesignDecision), Some(NoTechnicalFix)}
    && Settled(a.parkedAtDeclared, a.parkDeclared)
  }

  predicate RailAsked(w: Workload, a: Answers) {
    !NotItsFault(w, a) && SomeRailTook(Told(a)) && Settled(a.parkedAtRail, a.parkRail)
  }

  /** The first reason to leave a Workload alone, in the order they are looked at. */
  lemma StopsExactly(w: Workload, a: Answers)
    ensures EarlyStop(w, a) ==
      if a.issue == IsClosed then Some(SkipClosed)
      else if HumanAsked(a) then Some(HumanEscalation)
      else if RailAsked(w, a) then Some(RailDemotedParked)
      else None
  {
    TasksSay(Told(a));
  }

  /** No stop comes first. */
  predicate GoesOn(w: Workload, a: Answers) {
    a.issue != IsClosed && !HumanAsked(a) && !RailAsked(w, a)
  }

  /** A failure of the infrastructure that has used up its own budget is parked as such, and retired once that is reported. */
  lemma InfraGivesUp(cfg: RetryConfig, w: Workload, a: Answers, load: Load)
    requires GoesOn(w, a) && NotItsFault(w, a) && InfraAttemptOf(w) >= cfg.infraMaxAttempts
    ensures Decide(cfg, w, a, load) == if a.parkInfra == Yes then Retire(GiveupInfra) else Keep(GiveupInfra)
  {
    StopsExactly(w, a);
    TasksSay(Told(a));
  }

  /** A coder that says no on a second attempt is believed: the Workload is retired, parked or not. */
  lemma SecondNoEnds(cfg: RetryConfig, w: Workload, a: Answers, load: Load)
    requires GoesOn(w, a) && !NotItsFault(w, a) && AttemptOf(w) >= 2 && SaidNo(Told(a))
    ensures var parked := a.parkedAtExhausted == IsParked || (a.parkedAtExhausted in {NotParked, Unknown} && a.parkExhausted == Yes);
      Decide(cfg, w, a, load) == Retire(if parked then NogoParked else NogoParkFailed)
  {
    StopsExactly(w, a);
    TasksSay(Told(a));
  }

  /** A budget of its own kind is left, and no second NO-GO was said. */
  predicate HasBudget(cfg: RetryConfig, w: Workload, a: Answers) {
    if NotItsFault(w, a) then InfraAttemptOf(w) < cfg.infraMaxAttempts
    else AttemptOf(w) < cfg.maxAttempts && !(AttemptOf(w) >= 2 && SaidNo(Told(a)))
  }

  lemma ReachesExactly(cfg: RetryConfig, w: Workload, a: Answers)
    ensures ReachesRetry(cfg, w, a) <==> GoesOn(w, a) && HasBudget(cfg, w, a)
  {
    StopsExactly(w, a);
    TasksSay(Told(a));
  }

  /** The coder its current lane and repo route to, whoever is busy. */
  lemma RetryCoderIs(cfg: RetryConfig, w: Workload, a: Answers)
    ensures RetryCoder(cfg, CurrentItem(cfg, w, a)) == CoderFor(
      LaneNow(cfg, w), LanguageOf(w.spec.repo, cfg.render.gateProfiles), w.spec.repo,
      if w.spec.issues == [] then IssueFromName(w.name) else w.spec.issues[0], cfg.routing, map[], map[], {})
  {
    CurrentItemIs(cfg, w, a);
  }

  lemma RetryManifestIs(cfg: RetryConfig, w: Workload, a: Answers, infra: bool)
    ensures var next := RetryManifest(cfg, w, a, infra);
      && next.lane == LaneNow(cfg, w) && (NoteOr(next, IssueId, "") != "" <==> IdKnown(w, a))
      && next.spec.repo == w.spec.repo && next.spec.intent == w.spec.intent
      && (a.feedback != "" ==> RolesFit(next.spec.pipeline, a.feedback))
  {
    var item := CurrentItem(cfg, w, a);
    CurrentItemIs(cfg, w, a);
    PipelineWorks(item, RetryCoder(cfg, item), a.feedback, Retry.Pushed(a) == Yes, cfg.render);
  }

  /**
   * With budget left a Workload is recreated on its current lane, for that coder, unless the coder is full; only an unreadable
   * task list keeps the pass from deciding.
   */
  lemma RetriesExactly(cfg: RetryConfig, w: Workload, a: Answers, load: Load)
    requires GoesOn(w, a) && HasBudget(cfg, w, a)
    ensures var move, coder := Decide(cfg, w, a, load), RetryCoder(cfg, CurrentItem(cfg, w, a));
      var room := cfg.slots == map[] || Held(load, coder) < SlotsFor(coder, cfg.slots);
      && (move == Abort <==> a.pushTasks.Raised?)
      && (a.pushTasks.Returned? && !room ==> move == Keep(Deferred(coder)))
      && (a.pushTasks.Returned? && room ==>
        move == Recreate(RetryManifest(cfg, w, a, NotItsFault(w, a)), coder, NotItsFault(w, a)))
  {
    ReachesExactly(cfg, w, a);
    TasksSay(Told(a));
  }

  // ----- What is done about it

  /** A kept Workload stays, a retired or escalated one is deleted, and nobody is charged for it. */
  lemma MoveDoes(objects: Objects, load: Load, name: string, a: Answers, move: Move)
    requires name in objects && !move.Recreate?
    ensures var e := Carry(objects, load, name, a, move);
      && e.load == load && (e.tag.None? <==> move == Abort)
      && (move.Keep? || move.Abort? ==> e.objects == objects)
      && (move.Retire? || move.HandOver? ==> (name in e.objects <==> a.delete == RaisedKept))
      && (move.Keep? || move.Retire? ==> e.tag == Some(move.tag))
      && (move.HandOver? ==> e.tag == Some(if a.delete == Gone then Escalated else EscalateError))
  {
  }

  /** A recreated one is reported and charged exactly when delete and create both went well. */
  lemma RecreateDoes(objects: Objects, load: Load, w: Workload, a: Answers, next: Workload, coder: string, infra: bool, c: string)
    requires w.name in objects && next.name == w.name
    ensures var e := Carry(objects, load, w.name, a, Recreate(next, coder, infra));
      && e.tag == Some(if a.delete != Gone || a.create != Stored then RetryError else if infra then RetryInfra else RetryVerdict)
      && (a.delete == Gone && a.create != RaisedAbsent ==> w.name in e.objects && e.objects[w.name] == next)
      && (w.name !in e.objects <==> a.delete == RaisedGone || (a.delete == Gone && a.create == RaisedAbsent))
      && (a.delete == RaisedKept ==> e.objects == objects)
      && Held(e.load, c) == Held(load, c) + (if coder == c && a.delete == Gone && a.create == Stored then 1 else 0)
  {
  }
}
