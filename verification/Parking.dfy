/** Parking issues for a human: one announcement a park, and no retry of the Workload after it. */
module Parking {
  import opened Outcomes
  import opened Workloads
  import opened Build
  import opened Retry

  // ----- What the park paths read and write on an issue

  /** comments counts the announcements posted by the park paths. */
  datatype Board = Board(backlog: bool, marker: bool, comments: nat)

  /** `issue_is_parked`: the status or the needs-human marker is enough. */
  predicate Parked(b: Board) {
    b.backlog || b.marker
  }

  datatype ParkWrites = ParkWrites(status: Write, mark: Write)

  datatype ParkResult = ParkResult(board: Board, reply: Reply)

  class Tracker {
    var board: Board

    constructor (initial: Board)
      ensures board == initial
    {
      board := initial;
    }

    method ToBacklog(w: Write) returns (reply: Reply)
      modifies this
      ensures reply == w.reply && board == old(board).(backlog := old(board).backlog || w.landed)
    {
      if w.landed {
        board := board.(backlog := true);
      }
      reply := w.reply;
    }

    method Mark(w: Write) returns (reply: Reply)
      modifies this
      ensures reply == w.reply && board == old(board).(marker := old(board).marker || w.landed)
    {
      if w.landed {
        board := board.(marker := true);
      }
      reply := w.reply;
    }

    method Unmark(w: Write) returns (reply: Reply)
      modifies this
      ensures reply == w.reply && board == old(board).(marker := old(board).marker && !w.landed)
    {
      if w.landed {
        board := board.(marker := false);
      }
      reply := w.reply;
    }

    method Announce()
      modifies this
      ensures board == old(board).(comments := old(board).comments + 1)
    {
      board := board.(comments := board.comments + 1);
    }
  }

  /** An issue is parked by a status write; only a reported one is labelled and announced. */
  function Park(b: Board, hasId: bool, pw: ParkWrites): ParkResult {
    var moved := b.(backlog := b.backlog || pw.status.landed);
    if !hasId then ParkResult(b, No)
    else if pw.status.reply != Yes then ParkResult(moved, pw.status.reply)
    else ParkResult(moved.(marker := moved.marker || pw.mark.landed, comments := moved.comments + 1), Yes)
  }

  /** `park_for_human`; a failing label or comment write changes nothing about its answer. */
  method ParkForHuman(tracker: Tracker, hasId: bool, pw: ParkWrites) returns (reply: Reply)
    modifies tracker
    ensures ParkResult(tracker.board, reply) == Park(old(tracker.board), hasId, pw)
  {
    if !hasId {
      return No;
    }
    reply := tracker.ToBacklog(pw.status);
    if reply == Yes {
      var _ := tracker.Mark(pw.mark);
      tracker.Announce();
    }
  }

  /** seen is the lookup made after the status write; others sums up the label writes besides the marker. */
  datatype InfraWrites = InfraWrites(status: Write, seen: bool, unmark: Write, others: Reply)

  function Toward(b: Board, w: Write): Board {
    b.(backlog := b.backlog || w.landed)
  }

  function ParkBroken(b: Board, hasId: bool, iw: InfraWrites): ParkResult {
    var moved := Toward(b, iw.status);
    if !hasId then ParkResult(b, No)
    else if iw.status.reply != Yes then ParkResult(moved, iw.status.reply)
    else
      ParkResult(
        moved.(marker := moved.marker && !iw.unmark.landed, comments := moved.comments + (if iw.seen then 0 else 1)),
        if iw.unmark.reply == Yes && iw.others == Yes then Yes else No)
  }

  /** `park_infra`; it takes the needs-human marker off, and looks for a park only after writing one. */
  method ParkInfra(tracker: Tracker, hasId: bool, iw: InfraWrites) returns (reply: Reply)
    modifies tracker
    ensures ParkResult(tracker.board, reply) == ParkBroken(old(tracker.board), hasId, iw)
  {
    if !hasId {
      return No;
    }
    reply := tracker.ToBacklog(iw.status);
    if reply != Yes {
      return;
    }
    var unmarked := tracker.Unmark(iw.unmark);
    if !iw.seen {
      tracker.Announce();
    }
    reply := if unmarked == Yes && iw.others == Yes then Yes else No;
  }

  /** A park is reported, labelled as far as that works, and announced, exactly when its status write was. */
  lemma ParkAnnounces(b: Board, hasId: bool, pw: ParkWrites)
    ensures var r := Park(b, hasId, pw);
      && (r.reply == Yes <==> hasId && pw.status.reply == Yes)
      && r.board.comments == b.comments + (if hasId && pw.status.reply == Yes then 1 else 0)
      && (r.board.marker <==> b.marker || (hasId && pw.status.reply == Yes && pw.mark.landed))
      && (r.board.backlog <==> b.backlog || (hasId && pw.status.landed))
  {
  }

  /** An infra park is reported only when its label writes worked too. */
  lemma InfraParkReports(b: Board, hasId: bool, iw: InfraWrites)
    ensures ParkBroken(b, hasId, iw).reply == Yes <==> hasId && iw.status.reply == Yes && iw.unmark.reply == Yes && iw.others == Yes
    ensures ParkBroken(b, hasId, iw).board.marker <==> b.marker && !(hasId && iw.status.reply == Yes && iw.unmark.landed)
  {
  }

  /** When the lookup shows the write just made, the infra park never announces itself. */
  lemma InfraParkIsSilent(b: Board, hasId: bool, iw: InfraWrites)
    requires Honest(iw.status)
    ensures ParkBroken(b, hasId, iw).board.comments > b.comments <==> hasId && iw.status.reply == Yes && !iw.seen
    ensures (iw.seen <==> Parked(Toward(b, iw.status))) ==> ParkBroken(b, hasId, iw).board.comments == b.comments
  {
  }

  // ----- One Failed Workload

  datatype VisitWrites = VisitWrites(
    declared: ParkWrites, declaredRepair: bool, rail: ParkWrites, railRepair: bool, exhausted: ParkWrites, infra: InfraWrites)

  function Look(b: Board, hasId: bool): ParkedReply {
    if !hasId then Unknown else if Parked(b) then IsParked else NotParked
  }

  /** An issue found parked only has its marker repaired. */
  function LookThenPark(b: Board, hasId: bool, found: ParkedReply, repair: bool, pw: ParkWrites): Board {
    if found == IsParked then b.(marker := b.marker || repair) else Park(b, hasId, pw).board
  }

  predicate AsksForHuman(tasks: seq<Task>) {
    var reason := DeclaredEscalation(tasks);
    reason.Some? && reason.value != BudgetExhausted
  }

  predicate HasId(cfg: RetryConfig, w: Workload, a: Answers) {
    CurrentItem(cfg, w, a).issueId != ""
  }

  function AfterDeclared(cfg: RetryConfig, w: Workload, tasks: seq<Task>, a: Answers, b: Board, ws: VisitWrites): Board {
    if AsksForHuman(tasks) then LookThenPark(b, HasId(cfg, w, a), a.parkedAtDeclared, ws.declaredRepair, ws.declared) else b
  }

  function AfterRail(cfg: RetryConfig, w: Workload, tasks: seq<Task>, a: Answers, b: Board, ws: VisitWrites): Board {
    if !IsInfra(w, a) && RailDemoted(tasks) then LookThenPark(b, HasId(cfg, w, a), a.parkedAtRail, ws.railRepair, ws.rail) else b
  }

  predicate LooksExhausted(cfg: RetryConfig, w: Workload, a: Answers) {
    SaidNoTwice(w, a) ||
    (AttemptOf(w) >= cfg.maxAttempts && !IsInfra(w, a) && !(CanEscalate(cfg, w, a) && a.escalate != No))
  }

  /** The issue after the early checks let the Workload through. */
  function AfterBudgets(cfg: RetryConfig, w: Workload, a: Answers, b: Board, ws: VisitWrites): Board {
    if IsInfra(w, a) && InfraAttemptOf(w) >= cfg.infraMaxAttempts then
      ParkBroken(b, ItemFromWorkload(w).issueId != "", ws.infra).board
    else if LooksExhausted(cfg, w, a) then LookThenPark(b, HasId(cfg, w, a), a.parkedAtExhausted, false, ws.exhausted)
    else b
  }

  /** The issue after the retry pass handled one of its Failed Workloads. */
  function Visit(cfg: RetryConfig, w: Workload, tasks: seq<Task>, a: Answers, b: Board, ws: VisitWrites): Board {
    var declared := AfterDeclared(cfg, w, tasks, a, b, ws);
    var rail := AfterRail(cfg, w, tasks, a, declared, ws);
    if a.issue == IsClosed then b
    else if DeclaredStop(a) then declared
    else if RailStop(w, a) then rail
    else AfterBudgets(cfg, w, a, rail, ws)
  }

  /** The park hooks answer as `park_for_human` and `issue_is_parked` do on this issue. */
  predicate Answered(b: Board, hasId: bool, found: ParkedReply, parked: Reply, pw: ParkWrites) {
    Honest(pw.status) && found == Look(b, hasId) && parked == Park(b, hasId, pw).reply
  }

  predicate InfraAnswered(w: Workload, a: Answers, b: Board, iw: InfraWrites) {
    && Honest(iw.status)
    && (iw.seen <==> Parked(Toward(b, iw.status)))
    && a.parkInfra == ParkBroken(b, ItemFromWorkload(w).issueId != "", iw).reply
  }

  /** Every lookup of the visit succeeds and reflects the writes before it. */
  predicate Reflects(cfg: RetryConfig, w: Workload, tasks: seq<Task>, a: Answers, b: Board, ws: VisitWrites) {
    var declared := AfterDeclared(cfg, w, tasks, a, b, ws);
    var rail := AfterRail(cfg, w, tasks, a, declared, ws);
    && a.tasks == Returned(tasks) && a.declared == Returned(DeclaredEscalation(tasks))
    && Answered(b, HasId(cfg, w, a), a.parkedAtDeclared, a.parkDeclared, ws.declared)
    && Answered(declared, HasId(cfg, w, a), a.parkedAtRail, a.parkRail, ws.rail)
    && Answered(rail, HasId(cfg, w, a), a.parkedAtExhausted, a.parkExhausted, ws.exhausted)
    && InfraAnswered(w, a, rail, ws.infra)
  }

  /** At most one announcement, and only by a step that parks an issue not parked before. */
  predicate AnnouncesAPark(before: Board, after: Board) {
    && (Parked(before) ==> Parked(after))
    && before.comments <= after.comments
    && after.comments <= before.comments + (if !Parked(before) && Parked(after) then 1 else 0)
  }

  lemma LookedThenParked(b: Board, hasId: bool, found: ParkedReply, parked: Reply, repair: bool, pw: ParkWrites)
    requires Answered(b, hasId, found, parked, pw)
    ensures var after := LookThenPark(b, hasId, found, repair, pw);
      && AnnouncesAPark(b, after)
      && (found == IsParked || parked == Yes ==> Parked(after))
      && (found != IsParked && parked != Yes ==> after.comments == b.comments)
  {
  }

  /** One visit announces at most one park, and never one of an issue that was parked already. */
  lemma VisitAnnouncesAPark(cfg: RetryConfig, w: Workload, tasks: seq<Task>, a: Answers, b: Board, ws: VisitWrites)
    requires Reflects(cfg, w, tasks, a, b, ws)
    ensures AnnouncesAPark(b, Visit(cfg, w, tasks, a, b, ws))
  {
    var hasId := HasId(cfg, w, a);
    var declared := AfterDeclared(cfg, w, tasks, a, b, ws);
    var rail := AfterRail(cfg, w, tasks, a, declared, ws);
    LookedThenParked(b, hasId, a.parkedAtDeclared, a.parkDeclared, ws.declaredRepair, ws.declared);
    LookedThenParked(declared, hasId, a.parkedAtRail, a.parkRail, ws.railRepair, ws.rail);
    LookedThenParked(rail, hasId, a.parkedAtExhausted, a.parkExhausted, false, ws.exhausted);
    InfraParkIsSilent(rail, ItemFromWorkload(w).issueId != "", ws.infra);
  }

  /**
   * A visit writes nothing to an issue that is closed, or whose Workload calls for no park: nobody asked for a human, no rail
   * demoted a failure of its own, and there is budget left and no repeated NO-GO.
   */
  lemma QuietVisit(cfg: RetryConfig, w: Workload, tasks: seq<Task>, a: Answers, b: Board, ws: VisitWrites)
    requires a.tasks == Returned(tasks) && a.declared == Returned(DeclaredEscalation(tasks))
    requires a.issue == IsClosed || !CallsForPark(cfg.maxAttempts, cfg.infraMaxAttempts, w, tasks)
    ensures Visit(cfg, w, tasks, a, b, ws) == b
  {
  }

  /** The first park that holds ends the visit: no later path writes to the issue. */
  lemma FirstParkEndsVisit(cfg: RetryConfig, w: Workload, tasks: seq<Task>, a: Answers, b: Board, ws: VisitWrites, other: VisitWrites)
    requires a.tasks == Returned(tasks) && a.declared == Returned(DeclaredEscalation(tasks))
    requires other.declared == ws.declared && other.declaredRepair == ws.declaredRepair
    requires (AsksForHuman(tasks) && (a.parkedAtDeclared == IsParked || a.parkDeclared == Yes))
      || (other.rail == ws.rail && other.railRepair == ws.railRepair && !w.executorError && !AnyExecutorError(tasks) && RailDemoted(tasks)
        && (a.parkedAtRail == IsParked || a.parkRail == Yes))
    ensures Visit(cfg, w, tasks, a, b, ws) == Visit(cfg, w, tasks, a, b, other)
  {
  }

  // ----- A park is final for the Workload

  /** The pass reported that the issue of w is parked. */
  predicate ReportsParked(move: Move) {
    (move.Keep? && move.tag in {HumanEscalation, RailDemotedParked}) ||
    (move.Retire? && move.tag in {NogoParked, Giveup, GiveupInfra})
  }

  /** What makes the pass park: the Workload and its tasks decide it, not the day. */
  predicate CallsForPark(maxAttempts: int, infraMax: int, w: Workload, tasks: seq<Task>) {
    var infra := w.executorError || AnyExecutorError(tasks);
    || AsksForHuman(tasks)
    || (infra && InfraAttemptOf(w) >= infraMax)
    || (!infra && (RailDemoted(tasks) || (AttemptOf(w) >= 2 && CoderSaidNo(tasks)) || AttemptOf(w) >= maxAttempts))
  }

  lemma ParkWasCalledFor(cfg: RetryConfig, w: Workload, tasks: seq<Task>, a: Answers, b: Board, ws: VisitWrites, load: Load)
    requires Reflects(cfg, w, tasks, a, b, ws) && ReportsParked(Decide(cfg, w, a, load))
    ensures CallsForPark(cfg.maxAttempts, cfg.infraMaxAttempts, w, tasks)
  {
  }

  lemma BudgetsParked(cfg: RetryConfig, w: Workload, a: Answers, b: Board, ws: VisitWrites, load: Load)
    requires a.issue != IsClosed && !DeclaredStop(a) && !RailStop(w, a) && ReportsParked(Decide(cfg, w, a, load))
    requires Answered(b, HasId(cfg, w, a), a.parkedAtExhausted, a.parkExhausted, ws.exhausted) && InfraAnswered(w, a, b, ws.infra)
    ensures Parked(AfterBudgets(cfg, w, a, b, ws))
  {
  }

  /** What the pass reported is so. */
  lemma ReportedParkHolds(cfg: RetryConfig, w: Workload, tasks: seq<Task>, a: Answers, b: Board, ws: VisitWrites, load: Load)
    requires Reflects(cfg, w, tasks, a, b, ws) && ReportsParked(Decide(cfg, w, a, load))
    ensures Parked(Visit(cfg, w, tasks, a, b, ws))
  {
    var hasId := HasId(cfg, w, a);
    var declared := AfterDeclared(cfg, w, tasks, a, b, ws);
    var rail := AfterRail(cfg, w, tasks, a, declared, ws);
    if DeclaredStop(a) {
      LookedThenParked(b, hasId, a.parkedAtDeclared, a.parkDeclared, ws.declaredRepair, ws.declared);
    } else if RailStop(w, a) {
      LookedThenParked(declared, hasId, a.parkedAtRail, a.parkRail, ws.railRepair, ws.rail);
    } else {
      BudgetsParked(cfg, w, a, rail, ws, load);
    }
  }

  predicate Retried(move: Move) {
    move.Recreate? || move.Abort?
  }

  /** While the issue is parked, a Workload that called for the park is not retried. */
  lemma ParkedIsNotRetried(cfg: RetryConfig, w: Workload, tasks: seq<Task>, a: Answers, b: Board, ws: VisitWrites, load: Load)
    requires Reflects(cfg, w, tasks, a, b, ws) && HasId(cfg, w, a) && Parked(b)
    requires CallsForPark(cfg.maxAttempts, cfg.infraMaxAttempts, w, tasks)
    ensures !Retried(Decide(cfg, w, a, load))
  {
    LookedThenParked(b, true, a.parkedAtDeclared, a.parkDeclared, ws.declaredRepair, ws.declared);
  }

  // ----- A Completed Workload that reported GO without a pull request

  /**
   * seen is what the lookup before the writes says; one that fails says no. A status write that answered false is ignored.
   */
  function GoWithoutPr(b: Board, identified: bool, seen: bool, pw: ParkWrites): Board {
    var moved := Toward(b, pw.status);
    if identified && seen then b
    else if pw.status.reply == Raises || !identified then moved
    else moved.(marker := moved.marker || pw.mark.landed, comments := moved.comments + 1)
  }

  method ParkGoWithoutPr(tracker: Tracker, identified: bool, seen: bool, pw: ParkWrites) returns (raised: bool, replay: bool)
    modifies tracker
    ensures tracker.board == GoWithoutPr(old(tracker.board), identified, seen, pw)
    ensures replay <==> identified && seen
    ensures raised <==> !replay && pw.status.reply == Raises
  {
    raised, replay := false, identified && seen;
    if replay {
      return;
    }
    var reply := tracker.ToBacklog(pw.status);
    if reply == Raises {
      raised := true;
    } else if identified {
      var _ := tracker.Mark(pw.mark);
      tracker.Announce();
    }
  }

  /** It announced a park that it did not make: the issue was parked and the lookup missed it, or neither write took effect. */
  predicate Misfires(b: Board, identified: bool, seen: bool, pw: ParkWrites) {
    && identified && !seen && pw.status.reply != Raises
    && (Parked(b) || (!pw.status.landed && !pw.mark.landed))
  }

  lemma MisfiresExactly(b: Board, identified: bool, seen: bool, pw: ParkWrites)
    ensures AnnouncesAPark(b, GoWithoutPr(b, identified, seen, pw)) <==> !Misfires(b, identified, seen, pw)
    ensures Misfires(b, identified, seen, pw) ==> GoWithoutPr(b, identified, seen, pw).comments == b.comments + 1
    ensures (seen <==> Parked(b)) ==> (Misfires(b, identified, seen, pw) <==>
      identified && !Parked(b) && pw.status.reply != Raises && !pw.status.landed && !pw.mark.landed)
  {
  }

  /** Two ticks on which both writes fail announce the same park twice, and park nothing. */
  lemma AnnouncedTwice()
    ensures var refused := ParkWrites(Write(No, false), Write(No, false));
      var unparked := Board(false, false, 0);
      GoWithoutPr(GoWithoutPr(unparked, true, false, refused), true, false, refused) == Board(false, false, 2)
  {
  }

  // ----- Runs of visits to one issue

  /**
   * HandOver is the infra recovery giving the issue to a human, which looks for no earlier park. Outside is anyone else
   * writing the issue's status and labels.
   */
  datatype Event =
    | FailedVisit(cfg: RetryConfig, w: Workload, tasks: seq<Task>, a: Answers, ws: VisitWrites)
    | CompletedVisit(identified: bool, seen: bool, pw: ParkWrites)
    | HandOver(hasId: bool, pw: ParkWrites)
    | Outside(backlog: bool, marker: bool)

  predicate Leads(b: Board, e: Event, after: Board) {
    match e
    case FailedVisit(cfg, w, tasks, a, ws) => Reflects(cfg, w, tasks, a, b, ws) && after == Visit(cfg, w, tasks, a, b, ws)
    case CompletedVisit(identified, seen, pw) => Honest(pw.status) && after == GoWithoutPr(b, identified, seen, pw)
    case HandOver(hasId, pw) => Honest(pw.status) && after == Park(b, hasId, pw).board
    case Outside(backlog, marker) => after == Board(backlog, marker, b.comments)
  }

  predicate Linked(boards: seq<Board>, events: seq<Event>, k: nat)
    requires k < |events| < |boards|
  {
    Leads(boards[k], events[k], boards[k + 1])
  }

  /** boards[k] is the issue after k events. */
  ghost predicate IsRun(boards: seq<Board>, events: seq<Event>) {
    |boards| == |events| + 1 && forall k :: 0 <= k < |events| ==> Linked(boards, events, k)
  }

  /** How often the bridge turned the issue from unparked to parked. */
  function Parkings(boards: seq<Board>, events: seq<Event>, k: nat): nat
    requires k <= |events| < |boards|
  {
    if k == 0 then 0
    else
      var parked := !events[k - 1].Outside? && !Parked(boards[k - 1]) && Parked(boards[k]);
      Parkings(boards, events, k - 1) + (if parked then 1 else 0)
  }

  /** An announcement with no park behind it: a misfire, or a parked issue handed over. */
  predicate IsMisfire(b: Board, e: Event) {
    || (e.CompletedVisit? && Misfires(b, e.identified, e.seen, e.pw))
    || (e.HandOver? && e.hasId && e.pw.status.reply == Yes && Parked(b))
  }

  function MisfireCount(boards: seq<Board>, events: seq<Event>, k: nat): nat
    requires k <= |events| < |boards|
  {
    if k == 0 then 0
    else MisfireCount(boards, events, k - 1) + (if IsMisfire(boards[k - 1], events[k - 1]) then 1 else 0)
  }

  lemma EventAnnounces(b: Board, e: Event, after: Board)
    requires Leads(b, e, after)
    ensures after.comments <= b.comments + (if IsMisfire(b, e) || (!e.Outside? && !Parked(b) && Parked(after)) then 1 else 0)
    ensures !e.Outside? && Parked(b) ==> Parked(after)
  {
    match e
    case FailedVisit(cfg, w, tasks, a, ws) => VisitAnnouncesAPark(cfg, w, tasks, a, b, ws);
    case CompletedVisit(identified, seen, pw) => MisfiresExactly(b, identified, seen, pw);
    case HandOver(hasId, pw) =>
    case Outside(backlog, marker) =>
  }

  /** Over any run, announcements are paid for by parks made, or by misfires. */
  lemma {:induction false} AnnouncementsAreParks(boards: seq<Board>, events: seq<Event>, k: nat)
    requires IsRun(boards, events) && k <= |events|
    ensures boards[k].comments <= boards[0].comments + Parkings(boards, events, k) + MisfireCount(boards, events, k)
  {
    if k > 0 {
      AnnouncementsAreParks(boards, events, k - 1);
      assert Linked(boards, events, k - 1);
      EventAnnounces(boards[k - 1], events[k - 1], boards[k]);
    }
  }

  /** Nobody else touches the issue between the two moments. */
  predicate Undisturbed(events: seq<Event>, i: nat, k: nat)
    requires k <= |events|
  {
    forall j :: i <= j < k ==> !events[j].Outside?
  }

  lemma {:induction false} StaysParked(boards: seq<Board>, events: seq<Event>, i: nat, k: nat)
    requires IsRun(boards, events) && i <= k <= |events| && Undisturbed(events, i, k) && Parked(boards[i])
    ensures Parked(boards[k])
    decreases k
  {
    if i < k {
      StaysParked(boards, events, i, k - 1);
      assert Linked(boards, events, k - 1);
      EventAnnounces(boards[k - 1], events[k - 1], boards[k]);
    }
  }

  /** An undisturbed issue is parked at most once. */
  lemma {:induction false} ParkedAtMostOnce(boards: seq<Board>, events: seq<Event>, k: nat)
    requires IsRun(boards, events) && k <= |events| && Undisturbed(events, 0, k)
    ensures Parkings(boards, events, k) + (if Parked(boards[0]) then 1 else 0) <= 1
    ensures Parkings(boards, events, k) == 1 ==> Parked(boards[k])
    ensures Parkings(boards, events, k) == 0 && !Parked(boards[0]) ==> !Parked(boards[k])
  {
    if k > 0 {
      ParkedAtMostOnce(boards, events, k - 1);
      assert Linked(boards, events, k - 1);
      EventAnnounces(boards[k - 1], events[k - 1], boards[k]);
      if Parked(boards[0]) {
        StaysParked(boards, events, 0, k - 1);
      }
    }
  }

  /** While nobody else touches an issue and no misfire happens, it gets one announcement at most, and none if it was parked. */
  lemma AtMostOneAnnouncement(boards: seq<Board>, events: seq<Event>, k: nat)
    requires IsRun(boards, events) && k <= |events| && Undisturbed(events, 0, k)
    requires MisfireCount(boards, events, k) == 0
    ensures boards[k].comments <= boards[0].comments + (if Parked(boards[0]) then 0 else 1)
  {
    AnnouncementsAreParks(boards, events, k);
    ParkedAtMostOnce(boards, events, k);
  }

  /** The same Workload, looked at again with the same tasks, budgets and a known issue id. */
  predicate SameCase(e: Event, f: Event) {
    && e.FailedVisit? && f.FailedVisit? && e.w == f.w && e.tasks == f.tasks
    && e.cfg.maxAttempts == f.cfg.maxAttempts && e.cfg.infraMaxAttempts == f.cfg.infraMaxAttempts
    && HasId(f.cfg, f.w, f.a)
  }

  /** A park that succeeded is never followed by a retry of that Workload, unless someone else touches the issue. */
  lemma NoRetryAfterPark(boards: seq<Board>, events: seq<Event>, i: nat, k: nat, load: Load, later: Load)
    requires IsRun(boards, events) && i < k < |events| && Undisturbed(events, i, k) && SameCase(events[i], events[k])
    requires ReportsParked(Decide(events[i].cfg, events[i].w, events[i].a, load))
    ensures !Retried(Decide(events[k].cfg, events[k].w, events[k].a, later))
  {
    var e, f := events[i], events[k];
    assert Linked(boards, events, i) && Linked(boards, events, k);
    ParkWasCalledFor(e.cfg, e.w, e.tasks, e.a, boards[i], e.ws, load);
    ReportedParkHolds(e.cfg, e.w, e.tasks, e.a, boards[i], e.ws, load);
    StaysParked(boards, events, i + 1, k);
    ParkedIsNotRetried(f.cfg, f.w, f.tasks, f.a, boards[k], f.ws, later);
  }
}
