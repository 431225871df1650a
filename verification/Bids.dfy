/** The demand for a coder's slots read off the answers alone, and what the slots make of it. */
module Bids {
  import opened Outcomes
  import opened Workloads
  import opened Coders
  import opened Slug
  import opened SlotBounds
  import opened Occupancy
  import R = Retry
  import RL = RetryLaws
  import F = PrFix
  import Build

  /** The slots of a coder that a pass finds free. */
  function Room(load: Load, slots: Slots, a: string): nat {
    Max(0, SlotsFor(a, slots) - Held(load, a))
  }

  // ----- Retries

  /** A retry of w for a would be stored if a had a slot. */
  predicate BidsFor(cfg: R.RetryConfig, w: Workload, x: R.Answers, a: string) {
    && R.ReachesRetry(cfg, w, x) && x.pushTasks.Returned? && R.RetryCoder(cfg, R.CurrentItem(cfg, w, x)) == a
    && x.delete == Gone && x.create != RaisedAbsent
  }

  /** What w adds to the bids of a. */
  function BidOf(cfg: R.RetryConfig, w: Workload, x: R.Answers, a: string): seq<CreateReply> {
    if BidsFor(cfg, w, x, a) then [x.create] else []
  }

  /** How the creates of a's retries answer, in listing order up to the first unreadable task list. */
  function RetryBids(cfg: R.RetryConfig, listed: seq<Workload>, answers: seq<R.Answers>, a: string): seq<CreateReply>
    requires |answers| == |listed|
  {
    if listed == [] then []
    else
      var n := |listed| - 1;
      RetryBids(cfg, listed[..n], answers[..n], a)
        + (if RL.SomeAborts(cfg, listed[..n], answers[..n]) then [] else BidOf(cfg, listed[n], answers[n], a))
  }

  function StoredIn(bids: seq<CreateReply>): nat {
    if bids == [] then 0 else StoredIn(bids[..|bids| - 1]) + Bit(bids[|bids| - 1] == Stored)
  }

  /** The bids that find a slot: only those reported as stored use one up. */
  function Taken(bids: seq<CreateReply>, room: nat): nat {
    if bids == [] then 0 else Taken(bids[..|bids| - 1], room) + Bit(StoredIn(bids[..|bids| - 1]) < room)
  }

  lemma RetryTakesOne(cfg: R.RetryConfig, w: Workload, x: R.Answers, load: Load, a: string)
    requires cfg.slots != map[]
    ensures var goes := BidsFor(cfg, w, x, a) && FreeSlots(a, load, cfg.slots) > 0;
      && Held(R.EffectOn(cfg, w, x, map[], load).load, a) == Held(load, a) + Bit(goes && x.create == Stored)
      && (Unrecorded(cfg, w, x, load, a) <==> goes && x.create == RaisedStored)
  {
    RetryDecision(cfg, w, x, load);
    RetryCharges(map[], load, w.name, x, R.Decide(cfg, w, x, load), a);
  }

  /** Whether a Workload is recreated, and for whom. */
  lemma RetryDecision(cfg: R.RetryConfig, w: Workload, x: R.Answers, load: Load)
    requires cfg.slots != map[]
    ensures var move, coder := R.Decide(cfg, w, x, load), R.RetryCoder(cfg, R.CurrentItem(cfg, w, x));
      && (move.Recreate? <==> R.ReachesRetry(cfg, w, x) && x.pushTasks.Returned? && FreeSlots(coder, load, cfg.slots) > 0)
      && (move.Recreate? ==> move.coder == coder)
  {
  }

  lemma RetryCharges(objects: Objects, load: Load, name: string, x: R.Answers, move: R.Move, a: string)
    ensures Held(R.Carry(objects, load, name, x, move).load, a)
      == Held(load, a) + Bit(move.Recreate? && move.coder == a && x.delete == Gone && x.create == Stored)
  {
  }

  lemma LoadIgnoresObjects(cfg: R.RetryConfig, w: Workload, x: R.Answers, objects: Objects, load: Load)
    ensures R.EffectOn(cfg, w, x, objects, load).load == R.EffectOn(cfg, w, x, map[], load).load
  {
  }

  /** What a pass charged to a, and what it put on a without charging it. */
  predicate Takes(before: Load, after: Load, unrecorded: nat, room: nat, bids: seq<CreateReply>, a: string) {
    && Held(after, a) == Held(before, a) + Min(room, StoredIn(bids))
    && unrecorded == Taken(bids, room) - Min(room, StoredIn(bids))
  }

  lemma BidTakes(
    before: Load, load: Load, after: Load, slots: Slots, u: nat, u': nat, bids: seq<CreateReply>, reply: CreateReply, a: string)
    requires var room := Room(before, slots, a); Takes(before, load, u, room, bids, a)
    requires var goes := FreeSlots(a, load, slots) > 0;
      Held(after, a) == Held(load, a) + Bit(goes && reply == Stored) && u' == u + Bit(goes && reply == RaisedStored)
    requires reply != RaisedAbsent
    ensures Takes(before, after, u', Room(before, slots, a), bids + [reply], a)
  {
    assert (bids + [reply])[..|bids|] == bids;
  }

  lemma HandleTakes(
    cfg: R.RetryConfig, w: Workload, x: R.Answers, start: Load, st: R.PassState, u: nat, bids: seq<CreateReply>, a: string)
    requires cfg.slots != map[] && Takes(start, st.load, u, Room(start, cfg.slots, a), bids, a)
    ensures Takes(start, R.Handle(cfg, w, x, st).load, u + Bit(Unrecorded(cfg, w, x, st.load, a)),
      Room(start, cfg.slots, a), bids + BidOf(cfg, w, x, a), a)
  {
    var after := R.Handle(cfg, w, x, st);
    RetryTakesOne(cfg, w, x, st.load, a);
    LoadIgnoresObjects(cfg, w, x, st.objects, st.load);
    if BidsFor(cfg, w, x, a) {
      BidTakes(start, st.load, after.load, cfg.slots, u, u + Bit(Unrecorded(cfg, w, x, st.load, a)), bids, x.create, a);
    } else {
      assert bids + BidOf(cfg, w, x, a) == bids;
    }
  }

  lemma BidsSnoc(cfg: R.RetryConfig, listed: seq<Workload>, answers: seq<R.Answers>, a: string, n: nat)
    requires |answers| == |listed| == n + 1
    ensures var front := RetryBids(cfg, listed[..n], answers[..n], a);
      RetryBids(cfg, listed, answers, a)
        == if RL.SomeAborts(cfg, listed[..n], answers[..n]) then front else front + BidOf(cfg, listed[n], answers[n], a)
  {
  }

  lemma {:induction false} PassTakes(cfg: R.RetryConfig, listed: seq<Workload>, answers: seq<R.Answers>, st: R.PassState, a: string)
    requires |answers| == |listed| && cfg.slots != map[] && !st.aborted
    ensures Takes(st.load, R.Pass(cfg, listed, answers, st).load, UnrecordedIn(cfg, listed, answers, st, a),
      Room(st.load, cfg.slots, a), RetryBids(cfg, listed, answers, a), a)
  {
    if listed != [] {
      var n := |listed| - 1;
      var before := R.Pass(cfg, listed[..n], answers[..n], st);
      PassTakes(cfg, listed[..n], answers[..n], st, a);
      RL.PassAbortsExactly(cfg, listed[..n], answers[..n], st);
      BidsSnoc(cfg, listed, answers, a, n);
      if !before.aborted {
        HandleTakes(cfg, listed[n], answers[n], st.load, before, UnrecordedIn(cfg, listed[..n], answers[..n], st, a),
          RetryBids(cfg, listed[..n], answers[..n], a), a);
      }
    }
  }

  /** A retry pass puts on a coder exactly the bids that find a slot, and charges the stored ones up to the room there is. */
  lemma RetryTakes(cfg: R.RetryConfig, listed: seq<Workload>, answers: seq<R.Answers>, st: R.PassState, a: string)
    requires |answers| == |listed| && RL.Shows(listed, st.objects) && AllFailed(listed) && cfg.slots != map[] && !st.aborted
    ensures var after, bids, room := R.Pass(cfg, listed, answers, st), RetryBids(cfg, listed, answers, a), Room(st.load, cfg.slots, a);
      && |NewOn(st.objects, after.objects, a)| == Taken(bids, room)
      && Held(after.load, a) == Held(st.load, a) + Min(room, StoredIn(bids))
  {
    RetryOccupiesExactly(cfg, listed, answers, st, a);
    PassTakes(cfg, listed, answers, st, a);
  }

  // ----- When retries overfill a coder

  predicate RaisedWithin(bids: seq<CreateReply>, room: nat) {
    exists j :: 0 <= j < |bids| && j < room && bids[j] == RaisedStored
  }

  lemma {:induction false} StoredAtMost(bids: seq<CreateReply>)
    ensures StoredIn(bids) <= |bids|
    ensures StoredIn(bids) == |bids| <==> forall b :: b in bids ==> b == Stored
  {
    if bids != [] {
      var front, last := bids[..|bids| - 1], bids[|bids| - 1];
      StoredAtMost(front);
      assert last in bids && (forall b :: b in front ==> b in bids) && forall b :: b in bids ==> b in front || b == last;
    }
  }

  lemma {:induction false} StoredGrows(bids: seq<CreateReply>, k: nat)
    requires k <= |bids|
    ensures StoredIn(bids[..k]) <= StoredIn(bids)
  {
    if k < |bids| {
      StoredGrows(bids[..|bids| - 1], k);
      assert bids[..|bids| - 1][..k] == bids[..k];
    } else {
      assert bids[..k] == bids;
    }
  }

  /** Until the room is used up every bid is taken. */
  lemma {:induction false} TakenAtMost(bids: seq<CreateReply>, room: nat)
    ensures Taken(bids, room) <= |bids| && (|bids| <= room ==> Taken(bids, room) == |bids|)
  {
    if bids != [] {
      TakenAtMost(bids[..|bids| - 1], room);
      StoredAtMost(bids[..|bids| - 1]);
    }
  }

  /** More bids are taken than there is room for exactly when there are more, and one within the room was stored unreported. */
  lemma {:induction false} TakenExceeds(bids: seq<CreateReply>, room: nat)
    requires forall b :: b in bids ==> b != RaisedAbsent
    ensures Taken(bids, room) > room <==> |bids| > room && RaisedWithin(bids, room)
  {
    TakenAtMost(bids, room);
    if |bids| > room {
      var front := bids[..|bids| - 1];
      assert forall b :: b in front ==> b in bids;
      TakenExceeds(front, room);
      TakenAtMost(front, room);
      StoredAtMost(front[..room]);
      StoredGrows(front, room);
      FrontRaises(bids, room);
      if |front| == room {
        assert front[..room] == front;
        StoredAtMost(front);
        if RaisedWithin(front, room) {
          var j :| 0 <= j < |front| && j < room && front[j] == RaisedStored;
          assert front[j] in front;
        }
      }
    }
  }

  lemma FrontRaises(bids: seq<CreateReply>, room: nat)
    requires |bids| > room && forall b :: b in bids ==> b != RaisedAbsent
    ensures var front := bids[..|bids| - 1];
      && (RaisedWithin(front, room) <==> RaisedWithin(bids, room))
      && (!RaisedWithin(bids, room) ==> forall b :: b in front[..room] ==> b == Stored)
  {
    var front := bids[..|bids| - 1];
    if RaisedWithin(bids, room) {
      var j :| 0 <= j < |bids| && j < room && bids[j] == RaisedStored;
      assert front[j] == RaisedStored;
    } else {
      forall b | b in front[..room] ensures b == Stored {
        var j :| 0 <= j < room && front[..room][j] == b;
        assert bids[j] == b && bids[j] in bids;
      }
    }
  }

  lemma {:induction false} BidsAreStored(cfg: R.RetryConfig, listed: seq<Workload>, answers: seq<R.Answers>, a: string)
    requires |answers| == |listed|
    ensures forall b :: b in RetryBids(cfg, listed, answers, a) ==> b != RaisedAbsent
  {
    if listed != [] {
      BidsAreStored(cfg, listed[..|listed| - 1], answers[..|listed| - 1], a);
    }
  }

  /**
   * A retry pass leaves more active Workloads on a coder than its slots, or than it began with, exactly when more retries
   * bid for it than it has room, and one of the first that fit into the room was stored although its create raised.
   */
  lemma RetryOverfillsExactly(cfg: R.RetryConfig, listed: seq<Workload>, answers: seq<R.Answers>, st: R.PassState, a: string)
    requires |answers| == |listed| && RL.Shows(listed, st.objects) && AllFailed(listed) && cfg.slots != map[] && !st.aborted
    ensures var after, bids, room := R.Pass(cfg, listed, answers, st), RetryBids(cfg, listed, answers, a), Room(st.load, cfg.slots, a);
      Held(st.load, a) + |NewOn(st.objects, after.objects, a)| > Max(Held(st.load, a), SlotsFor(a, cfg.slots)) <==>
      |bids| > room && RaisedWithin(bids, room)
  {
    RetryTakes(cfg, listed, answers, st, a);
    BidsAreStored(cfg, listed, answers, a);
    TakenExceeds(RetryBids(cfg, listed, answers, a), Room(st.load, cfg.slots, a));
  }

  // ----- One slot, two active Workloads

  function FailedIssue(n: nat, render: Build.Render): Workload {
    Build.BuildWorkload(Build.ClaimedItem("o/r", n, "", "local", ""), 1, 1, "coder", "", "", "", render).(phase := Failed)
  }

  function PlainAnswers(create: CreateReply): R.Answers {
    R.Answers(Returned([]), R.IsOpen, Returned(None), R.NotParked, No, R.NotParked, No, R.NotParked, No, No, No, "", "",
      Returned([]), R.Missing, Gone, create)
  }

  function OneSlot(render: Build.Render): R.RetryConfig {
    R.RetryConfig(3, 3, "", Routing(map["*" := One("coder")], map[], map[], map[]), map["coder" := Some(1)], map[], render)
  }

  lemma FailedIssueIs(n: nat, render: Build.Render)
    ensures var w := FailedIssue(n, render);
      && RL.IssueNamed(w) && w.phase == Failed && w.name == WorkloadName("o/r", n) && !w.executorError
      && Build.AttemptOf(w) == 1 && Build.InfraAttemptOf(w) == 1
      && Build.ItemFromWorkload(w).lane == "local" && Build.ItemFromWorkload(w).repo == "o/r"
  {
    Build.BuiltWorkloadReadsBack(Build.ClaimedItem("o/r", n, "", "local", ""), 1, 1, "coder", "", "", "", render);
  }

  lemma FailedIssueCoder(n: nat, render: Build.Render, create: CreateReply)
    ensures var w, x, cfg := FailedIssue(n, render), PlainAnswers(create), OneSlot(render);
      R.RetryCoder(cfg, R.CurrentItem(cfg, w, x)) == "coder"
  {
    var cfg, w, x := OneSlot(render), FailedIssue(n, render), PlainAnswers(create);
    FailedIssueIs(n, render);
    assert R.CurrentItem(cfg, w, x).lane == "local" && R.CurrentItem(cfg, w, x).repo == "o/r";
    assert Tiers("local", Build.LanguageOf("o/r", render.gateProfiles), "o/r", cfg.routing)[0] == Some(One("coder"));
  }

  lemma FailedIssueBids(n: nat, render: Build.Render, create: CreateReply)
    requires create != RaisedAbsent
    ensures var w, x, cfg := FailedIssue(n, render), PlainAnswers(create), OneSlot(render);
      BidsFor(cfg, w, x, "coder") && !RL.AbortsOn(cfg, w, x)
  {
    FailedIssueIs(n, render);
    FailedIssueCoder(n, render, create);
  }

  lemma BidsOfTwo(cfg: R.RetryConfig, v: Workload, w: Workload, x: R.Answers, y: R.Answers, a: string)
    requires BidsFor(cfg, v, x, a) && BidsFor(cfg, w, y, a) && !RL.AbortsOn(cfg, v, x)
    ensures RetryBids(cfg, [v, w], [x, y], a) == [x.create, y.create]
  {
    assert [v, w][..1] == [v] && [x, y][..1] == [x] && [v][..0] == [] && [x][..0] == [];
    assert RetryBids(cfg, [v], [x], a) == [x.create];
    assert !RL.SomeAborts(cfg, [v], [x]);
  }

  lemma TwoTaken()
    ensures Taken([RaisedStored, Stored], 1) == 2 && StoredIn([RaisedStored, Stored]) == 1
  {
    assert [RaisedStored, Stored][..1] == [RaisedStored] && [RaisedStored][..0] == [];
    assert Taken([RaisedStored], 1) == 1 && StoredIn([RaisedStored]) == 0;
  }

  /** Two retries of a coder with one free slot, the first stored although its create raised: both go ahead. */
  lemma BothGoAhead(cfg: R.RetryConfig, v: Workload, w: Workload, x: R.Answers, y: R.Answers, st: R.PassState, a: string)
    requires BidsFor(cfg, v, x, a) && BidsFor(cfg, w, y, a) && !RL.AbortsOn(cfg, v, x)
    requires x.create == RaisedStored && y.create == Stored
    requires RL.Shows([v, w], st.objects) && AllFailed([v, w]) && cfg.slots != map[] && !st.aborted
    requires Room(st.load, cfg.slots, a) == 1
    ensures var after := R.Pass(cfg, [v, w], [x, y], st);
      |NewOn(st.objects, after.objects, a)| == 2 && Held(after.load, a) == Held(st.load, a) + 1
  {
    BidsOfTwo(cfg, v, w, x, y, a);
    TwoTaken();
    RetryTakes(cfg, [v, w], [x, y], st, a);
  }

  lemma OneSlotIs(render: Build.Render)
    ensures var slots := OneSlot(render).slots; slots != map[] && SlotsFor("coder", slots) == Room(map[], slots, "coder") == 1
  {
    assert "coder" in OneSlot(render).slots;
  }

  function TwoFailed(render: Build.Render): Objects {
    map[WorkloadName("o/r", 1) := FailedIssue(1, render), WorkloadName("o/r", 2) := FailedIssue(2, render)]
  }

  lemma TwoShown(render: Build.Render)
    ensures var listed := [FailedIssue(1, render), FailedIssue(2, render)];
      RL.Shows(listed, TwoFailed(render)) && AllFailed(listed)
  {
    FailedIssueIs(1, render);
    FailedIssueIs(2, render);
    NameCollision("o/r", 1, "o/r", 2);
  }

  /** A create that raises after it was stored hides a Workload from the load: both retries of a one-slot coder go ahead. */
  lemma UnrecordedOverfills(render: Build.Render)
    ensures var cfg, st := OneSlot(render), R.PassState(TwoFailed(render), map[], [], false);
      var after := R.Pass(
        cfg, [FailedIssue(1, render), FailedIssue(2, render)], [PlainAnswers(RaisedStored), PlainAnswers(Stored)], st);
      Held(after.load, "coder") == SlotsFor("coder", cfg.slots) == 1 && |NewOn(st.objects, after.objects, "coder")| == 2
  {
    OneSlotIs(render);
    TwoShown(render);
    FailedIssueBids(1, render, RaisedStored);
    FailedIssueBids(2, render, Stored);
    BothGoAhead(OneSlot(render), FailedIssue(1, render), FailedIssue(2, render), PlainAnswers(RaisedStored), PlainAnswers(Stored),
      R.PassState(TwoFailed(render), map[], [], false), "coder");
  }

  // ----- Fixes

  /** The load of a rose by the bids for it, as far as there was room. */
  predicate Fills(before: Load, after: Load, slots: Slots, bids: nat, a: string) {
    Held(after, a) == Held(before, a) + Min(Room(before, slots, a), bids)
  }

  lemma FillsAddUp(before: Load, between: Load, after: Load, slots: Slots, x: nat, y: nat, a: string)
    requires Fills(before, between, slots, x, a) && Fills(between, after, slots, y, a)
    ensures Fills(before, after, slots, x + y, a)
  {
  }

  /** A remade w would be stored and charged to a if a had a slot. */
  predicate FixBid(cfg: F.FixConfig, w: Workload, x: F.FixAnswers, a: string) {
    var move := F.DecideFix(cfg, w, x, map[]);
    move.Remake? && move.coder == Some(a) && x.delete == Gone && x.create == Stored
  }

  function FixBids(cfg: F.FixConfig, listed: seq<Workload>, answers: seq<F.FixAnswers>, a: string): nat
    requires |answers| == |listed|
  {
    if listed == [] then 0
    else
      var n := |listed| - 1;
      FixBids(cfg, listed[..n], answers[..n], a) + Bit(FixBid(cfg, listed[n], answers[n], a))
  }

  /** The load only decides whether a remade fix has to wait. */
  lemma FixDecision(cfg: F.FixConfig, w: Workload, x: F.FixAnswers, load: Load, a: string)
    requires cfg.slots != map[] && a != ""
    ensures var move, idle := F.DecideFix(cfg, w, x, load), F.DecideFix(cfg, w, x, map[]);
      move.Remake? && move.coder == Some(a) <==> idle.Remake? && idle.coder == Some(a) && FreeSlots(a, load, cfg.slots) > 0
  {
  }

  lemma RemakeCharges(objects: Objects, load: Load, w: Workload, x: F.FixAnswers, move: F.FixMove, a: string)
    ensures Held(F.Effect(objects, load, w, x, move).load, a)
      == Held(load, a) + Bit(move.Remake? && move.coder == Some(a) && x.delete == Gone && x.create == Stored)
  {
  }

  lemma {:induction false} FixesTake(cfg: F.FixConfig, listed: seq<Workload>, answers: seq<F.FixAnswers>, st: F.FixState, a: string)
    requires |answers| == |listed| && cfg.slots != map[] && a != ""
    ensures Fills(st.load, F.FixPass(cfg, listed, answers, st).load, cfg.slots, FixBids(cfg, listed, answers, a), a)
  {
    if listed != [] {
      var n := |listed| - 1;
      var w, x, before := listed[n], answers[n], F.FixPass(cfg, listed[..n], answers[..n], st);
      FixesTake(cfg, listed[..n], answers[..n], st, a);
      FixDecision(cfg, w, x, before.load, a);
      RemakeCharges(before.objects, before.load, w, x, F.DecideFix(cfg, w, x, before.load), a);
    }
  }

  /** A queue entry would be stored and charged to a if a had a slot. */
  predicate DrainBid(cfg: F.FixConfig, q: F.Queued, existing: set<string>, a: string) {
    q.item.Some? && q.create == Stored && var item := q.item.value;
    item.branch != "" && F.FixName(item.repo, item.pr) !in existing && F.FixCoderFor(item.lane, cfg.laneAgents) == a
  }

  function DrainBids(cfg: F.FixConfig, queue: seq<F.Queued>, existing: set<string>, a: string): nat {
    if queue == [] then 0
    else DrainBids(cfg, queue[..|queue| - 1], existing, a) + Bit(DrainBid(cfg, queue[|queue| - 1], existing, a))
  }

  lemma DrainTakesOne(
    cfg: F.FixConfig, render: Build.Render, q: F.Queued, existing: set<string>, objects: Objects, load: Load, a: string)
    requires cfg.slots != map[]
    ensures Held(F.DrainOne(cfg, render, q, existing, objects, load).load, a)
      == Held(load, a) + Bit(DrainBid(cfg, q, existing, a) && FreeSlots(a, load, cfg.slots) > 0)
  {
  }

  lemma {:induction false} DrainTakes(
    cfg: F.FixConfig, render: Build.Render, queue: seq<F.Queued>, existing: set<string>, st: F.DrainState, a: string)
    requires cfg.slots != map[]
    ensures Fills(st.load, F.Drain(cfg, render, queue, existing, st).load, cfg.slots, DrainBids(cfg, queue, existing, a), a)
  {
    if queue != [] {
      var n := |queue| - 1;
      var before := F.Drain(cfg, render, queue[..n], existing, st);
      DrainTakes(cfg, render, queue[..n], existing, st, a);
      DrainTakesOne(cfg, render, queue[n], existing, before.objects, before.load, a);
    }
  }

  /** What one tick's fixes charge to a coder, told before the first is carried out: their bids, up to the slots spare. */
  lemma {:induction false} FixesThenDrain(
    cfg: F.FixConfig, render: Build.Render, listed: seq<Workload>, answers: seq<F.FixAnswers>, queue: seq<F.Queued>,
    existing: set<string>, before: F.FixState, middle: F.DrainState, a: string)
    requires |answers| == |listed| && cfg.slots != map[] && a != ""
    requires middle.load == F.FixPass(cfg, listed, answers, before).load
    ensures Fills(before.load, F.Drain(cfg, render, queue, existing, middle).load, cfg.slots,
      FixBids(cfg, listed, answers, a) + DrainBids(cfg, queue, existing, a), a)
  {
    FixesTake(cfg, listed, answers, before, a);
    DrainTakes(cfg, render, queue, existing, middle, a);
    FillsAddUp(before.load, middle.load, F.Drain(cfg, render, queue, existing, middle).load, cfg.slots,
      FixBids(cfg, listed, answers, a), DrainBids(cfg, queue, existing, a), a);
  }
}
