/** Moving the issues of Completed Workloads out of status/in-progress. */
module ReviewTransition {
  import opened Outcomes
  import opened Workloads
  import opened Parking

  // ----- What the tasks of a Completed Workload say

  /** An empty verdict or pull request URL is an absent one; nothing reads whether the task succeeded. */
  datatype DoneTask = DoneTask(succeeded: bool, verdict: string, prUrl: string, resolved: bool)

  predicate HasPr(tasks: seq<DoneTask>) {
    exists t :: t in tasks && t.prUrl != ""
  }

  predicate ClaimsResolved(tasks: seq<DoneTask>) {
    exists t :: t in tasks && t.resolved
  }

  /** The last verdict any task carries. */
  predicate IsLastVerdict(tasks: seq<DoneTask>, verdict: string) {
    if verdict == "" then forall t :: t in tasks ==> t.verdict == ""
    else
      exists i :: 0 <= i < |tasks| && tasks[i].verdict == verdict && forall j :: i < j < |tasks| ==> tasks[j].verdict == ""
  }

  function LastVerdict(tasks: seq<DoneTask>): (verdict: string)
    ensures IsLastVerdict(tasks, verdict)
  {
    if tasks == [] then ""
    else
      var last := tasks[|tasks| - 1];
      if last.verdict != "" then last.verdict
      else
        var before := LastVerdict(tasks[..|tasks| - 1]);
        assert tasks == tasks[..|tasks| - 1] + [last];
        before
  }

  /** `_extract_pr_url`: the first one, whatever the task's own outcome. */
  method ExtractPrUrl(tasks: seq<DoneTask>) returns (url: string)
    ensures url != "" <==> HasPr(tasks)
    ensures url != "" ==>
      exists i :: 0 <= i < |tasks| && tasks[i].prUrl == url && forall j :: 0 <= j < i ==> tasks[j].prUrl == ""
  {
    for i := 0 to |tasks|
      invariant forall j :: 0 <= j < i ==> tasks[j].prUrl == ""
    {
      if tasks[i].prUrl != "" {
        return tasks[i].prUrl;
      }
    }
    url := "";
  }

  /** `_extract_task_signal`. */
  method ExtractVerdict(tasks: seq<DoneTask>) returns (verdict: string)
    ensures verdict == LastVerdict(tasks)
  {
    verdict := "";
    for i := 0 to |tasks|
      invariant verdict == LastVerdict(tasks[..i])
    {
      assert tasks[..i + 1][..i] == tasks[..i];
      if tasks[i].verdict != "" {
        verdict := tasks[i].verdict;
      }
    }
    assert tasks[..|tasks|] == tasks;
  }

  method ExtractResolved(tasks: seq<DoneTask>) returns (resolved: bool)
    ensures resolved <==> ClaimsResolved(tasks)
  {
    for i := 0 to |tasks|
      invariant forall j :: 0 <= j < i ==> !tasks[j].resolved
    {
      if tasks[i].resolved {
        return true;
      }
    }
    resolved := false;
  }

  // ----- Where an issue goes

  datatype IssueStatus = InProgress | InReview | Done | Blocked | Backlog | OtherStatus

  datatype Card = Card(status: IssueStatus, marker: bool, comments: nat)

  type Cards = map<Ref, Card>

  /** seen is what the lookup for an earlier park says, if one is made. */
  datatype Writes = Writes(seen: bool, status: Write, mark: Write, close: Reply)

  datatype Result = SkipNotCompleted | SkipPrFix | Reviewed | Resolved(closed: bool) | BlockedNoPr | ParkedNoPr(replay: bool) | Error

  /** `_item_from_workload`; unlike a retry it never reads the number out of the name. */
  function RefOf(w: Workload): Ref {
    Ref(w.spec.repo, if w.spec.issues == [] then 0 else w.spec.issues[0])
  }

  predicate Identified(r: Ref) {
    r.repo != "" && r.number != 0
  }

  predicate Eligible(w: Workload) {
    w.phase == Completed && w.createdBy != PrFixBridge
  }

  /** The status an eligible Workload's issue is sent to. */
  function Target(w: Workload, tasks: seq<DoneTask>): IssueStatus {
    if HasPr(tasks) then InReview
    else if w.allResolved || ClaimsResolved(tasks) then Done
    else if LastVerdict(tasks) == "GO" then Backlog
    else Blocked
  }

  function BoardOf(c: Card): Board {
    Board(c.status == Backlog, c.marker, c.comments)
  }

  function WithBoard(c: Card, b: Board): Card {
    Card(if b.backlog then Backlog else c.status, b.marker, b.comments)
  }

  function CardAt(cards: Cards, r: Ref): Card {
    if r in cards then cards[r] else Card(OtherStatus, false, 0)
  }

  datatype Placed = Placed(card: Card, result: Result)

  /** A status write that answered false counts as done; one that raised ends this Workload's turn. */
  function Transition(w: Workload, tasks: seq<DoneTask>, c: Card, ws: Writes): Placed {
    var target := Target(w, tasks);
    var written := if ws.status.landed then c.(status := target) else c;
    if w.phase != Completed then Placed(c, SkipNotCompleted)
    else if w.createdBy == PrFixBridge then Placed(c, SkipPrFix)
    else if target == Backlog then
      var replay := Identified(RefOf(w)) && ws.seen;
      Placed(
        WithBoard(c, GoWithoutPr(BoardOf(c), Identified(RefOf(w)), ws.seen, ParkWrites(ws.status, ws.mark))),
        if !replay && ws.status.reply == Raises then Error else ParkedNoPr(replay))
    else if ws.status.reply == Raises then Placed(written, Error)
    else if target == Done then Placed(written, Resolved(Identified(RefOf(w)) && ws.close == Yes))
    else if target == InReview then Placed(written, Reviewed)
    else Placed(written, BlockedNoPr)
  }

  /** One listed Workload; its task list is fetched outside any handler, and only for an eligible one. */
  datatype Turn = Turn(w: Workload, tasks: Try<seq<DoneTask>>, writes: Writes)

  datatype State = State(cards: Cards, results: seq<Result>, ended: bool)

  /** The exception from the task list ends the pass. */
  predicate EndsPass(t: Turn) {
    Eligible(t.w) && t.tasks.Raised?
  }

  function TasksOf(t: Turn): seq<DoneTask> {
    if t.tasks.Returned? then t.tasks.value else []
  }

  function Take(st: State, t: Turn): State {
    if EndsPass(t) then st.(ended := true)
    else
      var step := Transition(t.w, TasksOf(t), CardAt(st.cards, RefOf(t.w)), t.writes);
      State(st.cards[RefOf(t.w) := step.card], st.results + [step.result], st.ended)
  }

  function TakeAll(st: State, turns: seq<Turn>): State {
    if turns == [] then st
    else
      var before := TakeAll(st, turns[..|turns| - 1]);
      if before.ended then before else Take(before, turns[|turns| - 1])
  }

  method TransitionOne(w: Workload, tasks: seq<DoneTask>, c: Card, ws: Writes) returns (card: Card, result: Result)
    ensures Placed(card, result) == Transition(w, tasks, c, ws)
  {
    if w.phase != Completed {
      return c, SkipNotCompleted;
    }
    if w.createdBy == PrFixBridge {
      return c, SkipPrFix;
    }
    var url := ExtractPrUrl(tasks);
    var byTask := ExtractResolved(tasks);
    var verdict := ExtractVerdict(tasks);
    var identified := Identified(RefOf(w));
    if url == "" && !(w.allResolved || byTask) && verdict == "GO" {
      var tracker := new Tracker(BoardOf(c));
      var raised, replay := ParkGoWithoutPr(tracker, identified, ws.seen, ParkWrites(ws.status, ws.mark));
      return WithBoard(c, tracker.board), if raised then Error else ParkedNoPr(replay);
    }
    var target := if url != "" then InReview else if w.allResolved || byTask then Done else Blocked;
    card := if ws.status.landed then c.(status := target) else c;
    if ws.status.reply == Raises {
      result := Error;
    } else if url != "" {
      result := Reviewed;
    } else if w.allResolved || byTask {
      result := Resolved(identified && ws.close == Yes);
    } else {
      result := BlockedNoPr;
    }
  }

  class Desk {
    var cards: Cards

    constructor (initial: Cards)
      ensures cards == initial
    {
      cards := initial;
    }

    /** `transition_to_in_review`; a write that raises never ends the pass, an unreadable task list does. */
    method TransitionToInReview(turns: seq<Turn>) returns (results: seq<Result>, ended: bool)
      modifies this
      ensures State(cards, results, ended) == TakeAll(State(old(cards), [], false), turns)
      ensures ended <==> exists t :: t in turns && t.w.phase == Completed && t.w.createdBy != PrFixBridge && t.tasks.Raised?
      ensures !ended ==> |results| == |turns|
    {
      ghost var start := State(cards, [], false);
      results, ended := [], false;
      var i := 0;
      while i < |turns| && !ended
        invariant 0 <= i <= |turns|
        invariant State(cards, results, ended) == TakeAll(start, turns[..i])
      {
        var turn := turns[i];
        assert turns[..i + 1][..i] == turns[..i];
        if turn.w.phase == Completed && turn.w.createdBy != PrFixBridge && turn.tasks.Raised? {
          ended := true;
        } else {
          var tasks := if turn.tasks.Returned? then turn.tasks.value else [];
          var card, result := TransitionOne(turn.w, tasks, CardAt(cards, RefOf(turn.w)), turn.writes);
          cards := cards[RefOf(turn.w) := card];
          results := results + [result];
        }
        i := i + 1;
      }
      EndedStays(start, turns, i);
      EndsExactly(start, turns);
      assert turns[..|turns|] == turns;
    }
  }

  lemma {:induction false} EndedStays(st: State, turns: seq<Turn>, i: nat)
    requires i <= |turns| && (TakeAll(st, turns[..i]).ended || i == |turns|)
    ensures TakeAll(st, turns) == TakeAll(st, turns[..i])
    decreases |turns| - i
  {
    if i < |turns| {
      assert turns[..i + 1][..i] == turns[..i];
      EndedStays(st, turns, i + 1);
    } else {
      assert turns[..i] == turns;
    }
  }

  /** The pass ends early exactly when some eligible Workload's tasks cannot be listed, and is complete otherwise. */
  lemma {:induction false} EndsExactly(st: State, turns: seq<Turn>)
    requires !st.ended
    ensures TakeAll(st, turns).ended <==> exists i :: 0 <= i < |turns| && EndsPass(turns[i])
    ensures !TakeAll(st, turns).ended ==> |TakeAll(st, turns).results| == |st.results| + |turns|
  {
    if turns != [] {
      var n := |turns| - 1;
      EndsExactly(st, turns[..n]);
      if TakeAll(st, turns[..n]).ended {
        var i :| 0 <= i < n && EndsPass(turns[..n][i]);
        assert EndsPass(turns[i]);
      } else {
        forall i | 0 <= i < n ensures !EndsPass(turns[i]) {
          assert !EndsPass(turns[..n][i]);
        }
      }
    }
  }

  predicate FirstEnd(turns: seq<Turn>, first: nat) {
    first < |turns| && EndsPass(turns[first]) && forall i :: 0 <= i < first ==> !EndsPass(turns[i])
  }

  /** The first such Workload ends it: what came before is done, what comes after is not looked at. */
  lemma EndsAtFirst(st: State, turns: seq<Turn>, first: nat)
    requires !st.ended && FirstEnd(turns, first)
    ensures var before := TakeAll(st, turns[..first]);
      && !before.ended && |before.results| == |st.results| + first
      && TakeAll(st, turns) == before.(ended := true)
  {
    EndsExactly(st, turns[..first]);
    forall i | 0 <= i < first ensures !EndsPass(turns[..first][i]) {
      assert !EndsPass(turns[i]);
    }
    assert turns[..first + 1][..first] == turns[..first];
    EndedStays(st, turns, first + 1);
  }

  /** What a turn reports, and what it leaves alone. */
  lemma ResultExactly(w: Workload, tasks: seq<DoneTask>, c: Card, ws: Writes)
    ensures var r, target := Transition(w, tasks, c, ws), Target(w, tasks);
      var known := w.spec.repo != "" && w.spec.issues != [] && w.spec.issues[0] != 0;
      var replay := target == Backlog && known && ws.seen;
      && (r.result == SkipNotCompleted <==> w.phase != Completed)
      && (r.result == SkipPrFix <==> w.phase == Completed && w.createdBy == PrFixBridge)
      && (r.result in {SkipNotCompleted, SkipPrFix} || replay ==> r.card == c)
      && (w.phase == Completed && w.createdBy != PrFixBridge ==>
        && (replay ==> r.result == ParkedNoPr(true))
        && (!replay && ws.status.reply == Raises ==> r.result == Error)
        && (!replay && ws.status.reply != Raises ==> r.result == match target
          case InReview => Reviewed
          case Done => Resolved(known && ws.close == Yes)
          case Backlog => ParkedNoPr(false)
          case _ => BlockedNoPr))
  {
  }

  // ----- What the pass guarantees

  /** No other Workload of the pass stands for the issue. */
  predicate OnlyTurnOf(turns: seq<Turn>, i: nat)
    requires i < |turns|
  {
    forall j :: 0 <= j < |turns| && j != i ==> RefOf(turns[j].w) != RefOf(turns[i].w)
  }

  lemma {:induction false} OthersKeepCard(st: State, turns: seq<Turn>, r: Ref)
    requires forall j :: 0 <= j < |turns| ==> RefOf(turns[j].w) != r
    ensures CardAt(TakeAll(st, turns).cards, r) == CardAt(st.cards, r)
  {
    if turns != [] {
      OthersKeepCard(st, turns[..|turns| - 1], r);
    }
  }

  predicate NoneEnds(turns: seq<Turn>) {
    forall i :: 0 <= i < |turns| ==> !EndsPass(turns[i])
  }

  /** In a pass that nothing ends, the card left for an issue is what its one Workload made of the card it found. */
  lemma {:induction false} CardIsItsTurn(st: State, turns: seq<Turn>, i: nat)
    requires !st.ended && NoneEnds(turns) && i < |turns| && OnlyTurnOf(turns, i)
    ensures var t, r := turns[i], RefOf(turns[i].w);
      CardAt(TakeAll(st, turns).cards, r) == Transition(t.w, TasksOf(t), CardAt(st.cards, r), t.writes).card
  {
    var n := |turns| - 1;
    assert NoneEnds(turns[..n]);
    EndsExactly(st, turns[..n]);
    if i == n {
      OthersKeepCard(st, turns[..n], RefOf(turns[i].w));
    } else {
      CardIsItsTurn(st, turns[..n], i);
    }
  }

  /** GO without a pull request on an issue the lookup finds parked. */
  predicate IsReplay(t: Turn) {
    Identified(RefOf(t.w)) && Target(t.w, TasksOf(t)) == Backlog && t.writes.seen
  }

  /**
   * When the status write of a Completed issue Workload takes effect, its issue goes where its tasks send it, or is left
   * alone as a replay. So it stays in progress exactly when it was found parked while it was in progress; if the lookup tells
   * the truth, when someone put it back in progress without taking the needs-human marker off.
   */
  lemma CompletedLeavesProgress(st: State, turns: seq<Turn>, i: nat)
    requires !st.ended && NoneEnds(turns) && i < |turns| && OnlyTurnOf(turns, i)
    requires Eligible(turns[i].w) && turns[i].writes.status.landed
    ensures var t, r := turns[i], RefOf(turns[i].w);
      var before, after := CardAt(st.cards, r), CardAt(TakeAll(st, turns).cards, r);
      && (if IsReplay(t) then after == before else after.status == Target(t.w, TasksOf(t)))
      && (after.status == InProgress <==> before.status == InProgress && IsReplay(t))
      && ((t.writes.seen <==> Parked(BoardOf(before))) ==> (after.status == InProgress <==>
        before.status == InProgress && before.marker && Identified(r) && Target(t.w, TasksOf(t)) == Backlog))
  {
    CardIsItsTurn(st, turns, i);
  }

  /** A pull request of a task that failed counts as well. */
  lemma FailedTaskReviews(w: Workload, tasks: seq<DoneTask>, i: nat)
    requires i < |tasks| && !tasks[i].succeeded && tasks[i].prUrl != ""
    ensures Target(w, tasks) == InReview
  {
    assert tasks[i] in tasks;
  }

  /** Where an eligible Workload's issue is sent, by its tasks alone. */
  lemma TargetExactly(w: Workload, tasks: seq<DoneTask>)
    ensures Target(w, tasks) == InReview <==> exists t :: t in tasks && t.prUrl != ""
    ensures Target(w, tasks) == Done <==>
      (forall t :: t in tasks ==> t.prUrl == "") && (w.allResolved || exists t :: t in tasks && t.resolved)
    ensures Target(w, tasks) == Backlog <==>
      !w.allResolved && (forall t :: t in tasks ==> t.prUrl == "" && !t.resolved) && IsLastVerdict(tasks, "GO")
    ensures Target(w, tasks) == Blocked <==>
      !w.allResolved && (forall t :: t in tasks ==> t.prUrl == "" && !t.resolved) && !IsLastVerdict(tasks, "GO")
  {
    if IsLastVerdict(tasks, "GO") {
      LastVerdictIsUnique(tasks, "GO");
    }
  }

  lemma LastVerdictIsUnique(tasks: seq<DoneTask>, verdict: string)
    requires IsLastVerdict(tasks, verdict) && verdict != ""
    ensures verdict == LastVerdict(tasks)
  {
    var found := LastVerdict(tasks);
    var i :| 0 <= i < |tasks| && tasks[i].verdict == verdict && forall j :: i < j < |tasks| ==> tasks[j].verdict == "";
    assert found != "";
  }
}
