/** Fetching the lane queues in parallel, and finding an issue's lane and id in them. */
module LaneQueues {
  import opened Outcomes
  import opened Claims

  // ----- Parallel fetches

  /** A fetch that failed, or did not answer with a list, contributes nothing. */
  function Value<T>(reply: Try<Option<seq<T>>>): seq<T> {
    if reply.Returned? && reply.value.Some? then reply.value.value else []
  }

  predicate Distinct<T(==)>(s: seq<T>) {
    forall i, j :: 0 <= i < j < |s| ==> s[i] != s[j]
  }

  /** The order the fetches complete in: every fetch once. */
  ghost predicate Completes(order: seq<nat>, n: nat) {
    && Distinct(order) && (forall k :: 0 <= k < |order| ==> order[k] < n)
    && forall i :: 0 <= i < n ==> CompletesAt(order, i)
  }

  ghost predicate CompletesAt(order: seq<nat>, i: nat) {
    exists k :: 0 <= k < |order| && order[k] == i
  }

  /** `queues`: whatever order the fetches complete in, every lane gets its own answer. */
  method Queues<T>(lanes: seq<string>, replies: seq<Try<Option<seq<T>>>>, order: seq<nat>) returns (results: map<string, seq<T>>)
    requires |replies| == |lanes| && Distinct(lanes) && Completes(order, |lanes|)
    ensures results.Keys == set lane | lane in lanes
    ensures forall i :: 0 <= i < |lanes| ==> results[lanes[i]] == Value(replies[i])
    ensures forall i :: 0 <= i < |lanes| ==>
      if replies[i].Returned? && replies[i].value.Some? then replies[i] == Returned(Some(results[lanes[i]]))
      else results[lanes[i]] == []
  {
    results := map[];
    for k := 0 to |order|
      invariant forall lane :: lane in results <==> exists j :: 0 <= j < k && lanes[order[j]] == lane
      invariant forall j :: 0 <= j < k ==> results[lanes[order[j]]] == Value(replies[order[j]])
    {
      var i := order[k];
      results := results[lanes[i] := Value(replies[i])];
    }
    forall i | 0 <= i < |lanes| ensures lanes[i] in results && results[lanes[i]] == Value(replies[i]) {
      assert CompletesAt(order, i);
      var j :| 0 <= j < |order| && order[j] == i;
    }
  }

  function Concatenated<T>(replies: seq<Try<Option<seq<T>>>>): seq<T> {
    if replies == [] then [] else Concatenated(replies[..|replies| - 1]) + Value(replies[|replies| - 1])
  }

  /** A single fetch gives what it answered, if that is a list. */
  lemma OneFetch<T>(reply: Try<Option<seq<T>>>)
    ensures Concatenated([reply]) == match reply case Returned(Some(items)) => items case _ => []
  {
    assert [reply][..0] == [];
    assert Concatenated([reply]) == Concatenated([reply][..0]) + Value(reply);
  }

  lemma FetchSnoc<T>(front: seq<Try<Option<seq<T>>>>, reply: Try<Option<seq<T>>>)
    ensures Concatenated(front + [reply]) == Concatenated(front) + Value(reply)
  {
    assert (front + [reply])[..|front|] == front;
  }

  /** Two runs of fetches give what the first gave, followed by what the second gave. */
  lemma {:induction false} FetchesInOrder<T>(first: seq<Try<Option<seq<T>>>>, second: seq<Try<Option<seq<T>>>>)
    ensures Concatenated(first + second) == Concatenated(first) + Concatenated(second)
  {
    if second == [] {
      assert first + second == first;
    } else {
      var front, last := second[..|second| - 1], second[|second| - 1];
      FetchesInOrder(first, front);
      assert second == front + [last] && first + second == (first + front) + [last];
      calc {
        Concatenated(first + second);
        { FetchSnoc(first + front, last); }
        Concatenated(first + front) + Value(last);
        Concatenated(first) + Concatenated(front) + Value(last);
        Concatenated(first) + (Concatenated(front) + Value(last));
        { FetchSnoc(front, last); }
        Concatenated(first) + Concatenated(second);
      }
    }
  }

  /** `list_pr_fix_queued`: the lane-by-lane concatenation, as if the lanes had been fetched one after the other. */
  method ListQueued<T>(lanes: seq<string>, replies: seq<Try<Option<seq<T>>>>, order: seq<nat>) returns (items: seq<T>)
    requires |replies| == |lanes| && Distinct(lanes) && Completes(order, |lanes|)
    ensures items == Concatenated(replies)
  {
    var results := Queues(lanes, replies, order);
    items := [];
    for i := 0 to |lanes|
      invariant items == Concatenated(replies[..i])
    {
      assert replies[..i + 1][..i] == replies[..i];
      items := items + results[lanes[i]];
    }
    assert replies[..|replies|] == replies;
  }

  // ----- Finding an issue

  function NumberOf(q: QueueItem): int {
    if q.number.Some? then q.number.value else 0
  }

  predicate IsIssue(q: QueueItem, repo: string, number: int) {
    q.repo == Some(repo) && NumberOf(q) == number
  }

  predicate Holds(queue: seq<QueueItem>, repo: string, number: int) {
    exists q :: q in queue && IsIssue(q, repo, number)
  }

  /** The first listed lane that holds the issue. */
  function FirstLane(lanes: seq<string>, snapshot: Snapshot, repo: string, number: int): Option<string> {
    if lanes == [] then None
    else if Holds(QueueFor(snapshot, lanes[0]), repo, number) then Some(lanes[0])
    else FirstLane(lanes[1..], snapshot, repo, number)
  }

  type LaneIndex = map<(string, int), string>

  function LaneIn(index: LaneIndex, repo: string, number: int): Option<string> {
    if (repo, number) in index then Some(index[(repo, number)]) else None
  }

  predicate Indexable(repo: string, number: int) {
    repo != "" && number != 0
  }

  /** What the index says once one lane is written over it. */
  function Overwritten(index: LaneIndex, lane: string, queue: seq<QueueItem>, repo: string, number: int): Option<string> {
    if Indexable(repo, number) && Holds(queue, repo, number) then Some(lane) else LaneIn(index, repo, number)
  }

  /** The lane the index should name. */
  function IndexedLane(lanes: seq<string>, snapshot: Snapshot, repo: string, number: int): Option<string> {
    if Indexable(repo, number) then FirstLane(lanes, snapshot, repo, number) else None
  }

  lemma HoldsSnoc(queue: seq<QueueItem>, j: nat, repo: string, number: int)
    requires j < |queue|
    ensures Holds(queue[..j + 1], repo, number) <==> Holds(queue[..j], repo, number) || IsIssue(queue[j], repo, number)
  {
    assert queue[..j + 1] == queue[..j] + [queue[j]];
  }

  /** One lane written over the index of the lanes after it. */
  method OverwriteLane(index: LaneIndex, lane: string, queue: seq<QueueItem>) returns (now: LaneIndex)
    ensures forall repo, number :: LaneIn(now, repo, number) == Overwritten(index, lane, queue, repo, number)
  {
    now := index;
    for j := 0 to |queue|
      invariant forall repo, number :: LaneIn(now, repo, number) == Overwritten(index, lane, queue[..j], repo, number)
    {
      var q := queue[j];
      ghost var before := now;
      if q.repo.Some? && Indexable(q.repo.value, NumberOf(q)) {
        now := now[(q.repo.value, NumberOf(q)) := lane];
      }
      forall repo, number ensures LaneIn(now, repo, number) == Overwritten(index, lane, queue[..j + 1], repo, number) {
        HoldsSnoc(queue, j, repo, number);
        assert LaneIn(before, repo, number) == Overwritten(index, lane, queue[..j], repo, number);
      }
    }
    assert queue[..|queue|] == queue;
  }

  /** `lane_index`: written in reverse lane order, so the first listed lane wins. */
  method BuildLaneIndex(lanes: seq<string>, snapshot: Snapshot) returns (index: LaneIndex)
    ensures forall repo, number :: LaneIn(index, repo, number) == IndexedLane(lanes, snapshot, repo, number)
    ensures forall repo, number :: (repo, number) in index <==> IndexedLane(lanes, snapshot, repo, number).Some?
    ensures forall repo, number :: (repo, number) in index ==>
      IndexedLane(lanes, snapshot, repo, number) == Some(index[(repo, number)])
  {
    index := map[];
    for i := |lanes| downto 0
      invariant forall repo, number :: LaneIn(index, repo, number) == IndexedLane(lanes[i..], snapshot, repo, number)
    {
      assert lanes[i..][1..] == lanes[i + 1..];
      index := OverwriteLane(index, lanes[i], QueueFor(snapshot, lanes[i]));
    }
    assert lanes[0..] == lanes;
    forall repo, number
      ensures (repo, number) in index <==> IndexedLane(lanes, snapshot, repo, number).Some?
      ensures (repo, number) in index ==> IndexedLane(lanes, snapshot, repo, number) == Some(index[(repo, number)])
    {
      assert LaneIn(index, repo, number) == IndexedLane(lanes, snapshot, repo, number);
    }
  }

  /** The lane's queue lists the issue under its number. */
  predicate Lists(snapshot: Snapshot, lane: string, repo: string, number: int) {
    && lane in snapshot
    && exists k :: 0 <= k < |snapshot[lane]| && snapshot[lane][k].repo == Some(repo) && snapshot[lane][k].number == Some(number)
  }

  predicate FirstLists(lanes: seq<string>, snapshot: Snapshot, repo: string, number: int, i: nat) {
    i < |lanes| && Lists(snapshot, lanes[i], repo, number) && forall j :: 0 <= j < i ==> !Lists(snapshot, lanes[j], repo, number)
  }

  lemma ListsExactly(snapshot: Snapshot, lane: string, repo: string, number: int)
    requires number != 0
    ensures Lists(snapshot, lane, repo, number) <==> Holds(QueueFor(snapshot, lane), repo, number)
  {
    if Lists(snapshot, lane, repo, number) {
      var k :| 0 <= k < |snapshot[lane]| && snapshot[lane][k].repo == Some(repo) && snapshot[lane][k].number == Some(number);
      assert IsIssue(snapshot[lane][k], repo, number);
    }
  }

  /** An issue with a repo and a number is indexed under the first polled lane whose queue lists it; no other issue is. */
  lemma {:induction false} IndexedExactly(lanes: seq<string>, snapshot: Snapshot, repo: string, number: int)
    ensures repo == "" || number == 0 ==> IndexedLane(lanes, snapshot, repo, number) == None
    ensures repo != "" && number != 0 ==>
      (IndexedLane(lanes, snapshot, repo, number) == None <==> forall j :: 0 <= j < |lanes| ==> !Lists(snapshot, lanes[j], repo, number))
    ensures repo != "" && number != 0 ==>
      forall i: nat :: FirstLists(lanes, snapshot, repo, number, i) ==> IndexedLane(lanes, snapshot, repo, number) == Some(lanes[i])
  {
    if lanes != [] && repo != "" && number != 0 {
      var rest := lanes[1..];
      IndexedExactly(rest, snapshot, repo, number);
      ListsExactly(snapshot, lanes[0], repo, number);
      assert forall j :: 0 <= j < |rest| ==> rest[j] == lanes[j + 1];
      forall i: nat | FirstLists(lanes, snapshot, repo, number, i) && i > 0
        ensures FirstLists(rest, snapshot, repo, number, i - 1) && rest[i - 1] == lanes[i]
      {
      }
    }
  }

  function FirstItem(queue: seq<QueueItem>, repo: string, number: int): (found: Option<QueueItem>)
    ensures found.Some? <==> Holds(queue, repo, number)
    ensures found.Some? ==> found.value in queue && IsIssue(found.value, repo, number)
  {
    if queue == [] then None
    else if IsIssue(queue[0], repo, number) then Some(queue[0])
    else
      assert queue == [queue[0]] + queue[1..];
      FirstItem(queue[1..], repo, number)
  }

  /** `find_issue_id`. */
  function FindIssueId(lanes: seq<string>, snapshot: Snapshot, repo: string, number: int): string {
    if lanes == [] then ""
    else
      var found := FirstItem(QueueFor(snapshot, lanes[0]), repo, number);
      if found.Some? then found.value.id else FindIssueId(lanes[1..], snapshot, repo, number)
  }

  /** The id is looked up in the very lane the index names. */
  lemma {:induction false} IdComesFromIndexedLane(lanes: seq<string>, snapshot: Snapshot, repo: string, number: int)
    ensures var lane := FirstLane(lanes, snapshot, repo, number);
      if lane.None? then FindIssueId(lanes, snapshot, repo, number) == ""
      else
        && lane.value in lanes && Holds(QueueFor(snapshot, lane.value), repo, number)
        && FindIssueId(lanes, snapshot, repo, number) == FirstItem(QueueFor(snapshot, lane.value), repo, number).value.id
  {
    if lanes != [] {
      IdComesFromIndexedLane(lanes[1..], snapshot, repo, number);
    }
  }
}
