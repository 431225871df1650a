/** No pass charges a coder above its slots, and what one whole tick may add. */
module SlotBounds {
  import opened Outcomes
  import opened Workloads
  import opened Coders
  import opened Saturation
  import opened Claims
  import R = Retry
  import F = PrFix
  import I = InfraPass
  import Build
  import opened Infra

  // ----- Pass by pass

  /** The load rose by at most one, and only on a coder that had a free slot. */
  predicate DrawsFreeSlot(load: Load, after: Load, slots: Slots, a: string) {
    Held(after, a) == Held(load, a) || (Held(after, a) == Held(load, a) + 1 && FreeSlots(a, load, slots) > 0)
  }

  /** Reached from start without ever drawing on a full coder. */
  predicate Bounded(start: Load, load: Load, slots: Slots, a: string) {
    Held(start, a) <= Held(load, a) && WithinSlots(start, load, slots, a)
  }

  lemma BoundedDraw(start: Load, load: Load, after: Load, slots: Slots, a: string)
    requires Bounded(start, load, slots, a) && DrawsFreeSlot(load, after, slots, a)
    ensures Bounded(start, after, slots, a)
  {
  }

  lemma RetryDraws(cfg: R.RetryConfig, w: Workload, answers: R.Answers, st: R.PassState, a: string)
    requires cfg.slots != map[]
    ensures DrawsFreeSlot(st.load, R.Handle(cfg, w, answers, st).load, cfg.slots, a)
  {
    var move := R.Decide(cfg, w, answers, st.load);
    RetryMoveIsGated(cfg, w, answers, st.load);
    RetryCarryDraws(st.objects, st.load, w.name, answers, move, cfg.slots, a);
  }

  predicate GatedMove(move: R.Move, load: Load, slots: Slots) {
    move.Recreate? ==> FreeSlots(move.coder, load, slots) > 0
  }

  lemma RetryMoveIsGated(cfg: R.RetryConfig, w: Workload, answers: R.Answers, load: Load)
    requires cfg.slots != map[]
    ensures GatedMove(R.Decide(cfg, w, answers, load), load, cfg.slots)
  {
  }

  lemma RetryCarryDraws(objects: Objects, load: Load, name: string, answers: R.Answers, move: R.Move, slots: Slots, a: string)
    requires GatedMove(move, load, slots)
    ensures DrawsFreeSlot(load, R.Carry(objects, load, name, answers, move).load, slots, a)
  {
  }

  lemma {:induction false} RetryPassBounded(
    cfg: R.RetryConfig, listed: seq<Workload>, answers: seq<R.Answers>, st: R.PassState, a: string)
    requires cfg.slots != map[] && |answers| == |listed|
    ensures Bounded(st.load, R.Pass(cfg, listed, answers, st).load, cfg.slots, a)
  {
    if listed != [] {
      var n := |listed| - 1;
      var before := R.Pass(cfg, listed[..n], answers[..n], st);
      RetryPassBounded(cfg, listed[..n], answers[..n], st, a);
      if !before.aborted {
        RetryDraws(cfg, listed[n], answers[n], before, a);
        BoundedDraw(st.load, before.load, R.Handle(cfg, listed[n], answers[n], before).load, cfg.slots, a);
      }
    }
  }

  lemma RedriveDraws(
    cfg: I.InfraConfig, probe: I.Probe, issue: Issue, x: I.InfraAnswers, objects: Objects, load: Load, a: string)
    requires cfg.slots != map[]
    ensures DrawsFreeSlot(load, I.HandleIssue(cfg, probe, issue, x, objects, load).load, cfg.slots, a)
  {
  }

  lemma {:induction false} InfraPassBounded(
    cfg: I.InfraConfig, probe: I.Probe, issues: seq<Issue>, answers: seq<I.InfraAnswers>, st: I.InfraState, a: string)
    requires cfg.slots != map[] && |answers| == |issues|
    ensures Bounded(st.load, I.ParkedPass(cfg, probe, issues, answers, st).load, cfg.slots, a)
  {
    if issues != [] {
      var n := |issues| - 1;
      var before := I.ParkedPass(cfg, probe, issues[..n], answers[..n], st);
      InfraPassBounded(cfg, probe, issues[..n], answers[..n], st, a);
      RedriveDraws(cfg, probe, issues[n], answers[n], before.objects, before.load, a);
      BoundedDraw(st.load, before.load, I.HandleIssue(cfg, probe, issues[n], answers[n], before.objects, before.load).load, cfg.slots, a);
    }
  }

  /** A fix retry draws on the coder of its own step; only one with no name escapes the gate. */
  predicate GatedFix(move: F.FixMove, load: Load, slots: Slots) {
    move.Remake? && move.coder.Some? && move.coder.value != "" ==> FreeSlots(move.coder.value, load, slots) > 0
  }

  lemma FixMoveIsGated(cfg: F.FixConfig, w: Workload, answers: F.FixAnswers, load: Load)
    requires cfg.slots != map[]
    ensures GatedFix(F.DecideFix(cfg, w, answers, load), load, cfg.slots)
  {
  }

  lemma FixEffectDraws(
    objects: Objects, load: Load, w: Workload, answers: F.FixAnswers, move: F.FixMove, slots: Slots, a: string)
    requires GatedFix(move, load, slots) && a != ""
    ensures DrawsFreeSlot(load, F.Effect(objects, load, w, answers, move).load, slots, a)
  {
  }

  lemma {:induction false} FixPassBounded(
    cfg: F.FixConfig, listed: seq<Workload>, answers: seq<F.FixAnswers>, st: F.FixState, a: string)
    requires cfg.slots != map[] && |answers| == |listed| && a != ""
    ensures Bounded(st.load, F.FixPass(cfg, listed, answers, st).load, cfg.slots, a)
  {
    if listed != [] {
      var n := |listed| - 1;
      var before := F.FixPass(cfg, listed[..n], answers[..n], st);
      FixPassBounded(cfg, listed[..n], answers[..n], st, a);
      FixMoveIsGated(cfg, listed[n], answers[n], before.load);
      FixEffectDraws(before.objects, before.load, listed[n], answers[n],
        F.DecideFix(cfg, listed[n], answers[n], before.load), cfg.slots, a);
      BoundedDraw(st.load, before.load, F.HandleFix(cfg, listed[n], answers[n], before).load, cfg.slots, a);
    }
  }

  lemma {:induction false} DrainBounded(
    cfg: F.FixConfig, render: Build.Render, queue: seq<F.Queued>, existing: set<string>, st: F.DrainState, a: string)
    requires cfg.slots != map[]
    ensures Bounded(st.load, F.Drain(cfg, render, queue, existing, st).load, cfg.slots, a)
  {
    if queue != [] {
      var n := |queue| - 1;
      var before := F.Drain(cfg, render, queue[..n], existing, st);
      DrainBounded(cfg, render, queue[..n], existing, st, a);
      BoundedDraw(st.load, before.load, F.DrainOne(cfg, render, queue[n], existing, before.objects, before.load).load, cfg.slots, a);
    }
  }

  // ----- The passes added up

  /** The load after each pass; the claims count on a copy of the one they find. */
  datatype Charges = Charges(start: Load, retried: Load, redriven: Load, claimed: Load, fixed: Load, drained: Load)

  /** What the claims charged to a coder. */
  function ClaimCharges(c: Charges, a: string): int {
    Held(c.claimed, a) - Held(c.redriven, a)
  }

  /** What the fixes and the drain charged to it. */
  function FixCharges(c: Charges, a: string): int {
    Held(c.drained, a) - Held(c.redriven, a)
  }

  /** Everything the tick charged to it. */
  function Charged(c: Charges, a: string): int {
    (Held(c.redriven, a) - Held(c.start, a)) + ClaimCharges(c, a) + FixCharges(c, a)
  }

  function Max(x: int, y: int): int {
    if x < y then y else x
  }

  function Min(x: int, y: int): int {
    if x < y then x else y
  }

  /** The slots a coder still had free when the claims began. */
  function Spare(c: Charges, slots: Slots, a: string): int {
    Max(0, SlotsFor(a, slots) - Held(c.redriven, a))
  }

  /** Each pass that shares the load drew only on free slots of a. */
  predicate SharedBounded(c: Charges, slots: Slots, a: string) {
    && Bounded(c.start, c.retried, slots, a) && Bounded(c.retried, c.redriven, slots, a)
    && Bounded(c.redriven, c.fixed, slots, a) && Bounded(c.fixed, c.drained, slots, a)
  }

  predicate EachBounded(c: Charges, slots: Slots, a: string) {
    SharedBounded(c, slots, a) && Bounded(c.redriven, c.claimed, slots, a)
  }

  /** The load the passes share ends within the slots. */
  predicate SharedBound(c: Charges, slots: Slots, a: string) {
    Held(c.start, a) <= Held(c.drained, a) <= Max(Held(c.start, a), SlotsFor(a, slots))
  }

  /** What the tick may end with on a coder: its slots, or the load it began with. */
  function Limit(c: Charges, slots: Slots, a: string): int {
    Max(Held(c.start, a), SlotsFor(a, slots))
  }

  /** The tick goes over its limit by no more than the claims and the fixes both charged, and never by more than was spare. */
  predicate TickBound(c: Charges, slots: Slots, a: string) {
    && Held(c.start, a) + Charged(c, a) <= Limit(c, slots, a) + Min(ClaimCharges(c, a), FixCharges(c, a))
    && Min(ClaimCharges(c, a), FixCharges(c, a)) <= Spare(c, slots, a)
  }

  lemma SharedAddsUp(c: Charges, slots: Slots, a: string)
    requires SharedBounded(c, slots, a)
    ensures SharedBound(c, slots, a)
  {
  }

  lemma TickAddsUp(c: Charges, slots: Slots, a: string)
    requires EachBounded(c, slots, a)
    ensures TickBound(c, slots, a)
  {
  }

  predicate Overfills(c: Charges, slots: Slots, a: string) {
    Held(c.start, a) + Charged(c, a) > Limit(c, slots, a)
  }

  /**
   * The tick goes over its limit exactly when claims and fixes together charged more than was spare; while the claims are
   * bounded too, never for a coder with nothing spare, or charged by only one of the two.
   */
  lemma OverfillsExactly(c: Charges, slots: Slots, a: string)
    requires SharedBounded(c, slots, a)
    ensures Overfills(c, slots, a) <==> ClaimCharges(c, a) + FixCharges(c, a) > Spare(c, slots, a)
    ensures Bounded(c.redriven, c.claimed, slots, a) && (Spare(c, slots, a) == 0 || ClaimCharges(c, a) == 0 || FixCharges(c, a) == 0)
      ==> !Overfills(c, slots, a)
  {
  }

  // ----- Coders only one kind of work can reach

  /** Some polled lane can bring its work to a. */
  ghost predicate LanesReach(cfg: ClaimConfig, lanes: seq<string>, a: string) {
    exists lane :: lane in lanes && CanReach(lane, cfg.routing, a)
  }

  lemma {:induction false} LaneSpares(
    cfg: ClaimConfig, world: ClaimWorld, lane: string, queue: seq<QueueItem>, st: ClaimState, here: nat, a: string)
    requires Ends(cfg, world)
    requires !CanReach(lane, cfg.routing, a)
    ensures Held(DrainFrom(cfg, world, lane, queue, st, here).load, a) == Held(st.load, a)
    decreases Headroom(cfg, st.inProgress), KeysIn(queue) - st.register.keys
  {
    if GoesOn(cfg, world, lane, queue, st) {
      var item, next := FirstClaim(lane, queue, world.granting, st.register).item.value, Next(cfg, world, lane, queue, st);
      CoderIsReachable(item.lane, Build.LanguageOf(item.repo, cfg.render.gateProfiles), item.repo, item.issueNumber,
        cfg.routing, st.load, cfg.slots, cfg.fixFirst);
      if !next.raised {
        LaneSpares(cfg, world, lane, queue, next, here + 1, a);
      }
    } else {
      StopKeepsWorld(cfg, world, lane, queue, st, here);
    }
  }

  /** Claims charge nothing to a coder that no polled lane reaches. */
  lemma {:induction false} ClaimsSpare(
    cfg: ClaimConfig, world: ClaimWorld, lanes: seq<string>, snapshot: Snapshot, st: ClaimState, a: string)
    requires Ends(cfg, world)
    requires !LanesReach(cfg, lanes, a)
    ensures Held(ClaimPass(cfg, world, lanes, snapshot, st).load, a) == Held(st.load, a)
  {
    if lanes != [] {
      var n := |lanes| - 1;
      assert !CanReach(lanes[n], cfg.routing, a);
      assert forall lane :: lane in lanes[..n] ==> lane in lanes;
      ClaimsSpare(cfg, world, lanes[..n], snapshot, st, a);
      var before := ClaimPass(cfg, world, lanes[..n], snapshot, st);
      if !before.raised {
        LaneSpares(cfg, world, lanes[n], QueueFor(snapshot, lanes[n]), before, 0, a);
      }
    }
  }

  /** A fix can be given to a: by the lane map, by the default, or because one already runs there. */
  predicate FixesReach(cfg: F.FixConfig, listed: seq<Workload>, a: string) {
    || a == DEFAULT_CODER
    || (exists lane :: lane in cfg.laneAgents && cfg.laneAgents[lane] == a)
    || (exists w :: w in listed && F.CurrentCoder(w.spec.pipeline) == Some(a))
  }

  lemma FixSpares(cfg: F.FixConfig, w: Workload, x: F.FixAnswers, st: F.FixState, a: string)
    requires a != DEFAULT_CODER && (forall lane :: lane in cfg.laneAgents ==> cfg.laneAgents[lane] != a)
    requires F.CurrentCoder(w.spec.pipeline) != Some(a)
    ensures Held(F.HandleFix(cfg, w, x, st).load, a) == Held(st.load, a)
  {
    var move := F.DecideFix(cfg, w, x, st.load);
    FixChargesOther(cfg, w, x, st.load, a);
    EffectSpares(st.objects, st.load, w, x, move, a);
  }

  lemma FixChargesOther(cfg: F.FixConfig, w: Workload, x: F.FixAnswers, load: Load, a: string)
    requires a != DEFAULT_CODER && (forall lane :: lane in cfg.laneAgents ==> cfg.laneAgents[lane] != a)
    requires F.CurrentCoder(w.spec.pipeline) != Some(a)
    ensures var move := F.DecideFix(cfg, w, x, load); move.Remake? ==> move.coder != Some(a)
  {
  }

  lemma EffectSpares(objects: Objects, load: Load, w: Workload, x: F.FixAnswers, move: F.FixMove, a: string)
    requires move.Remake? ==> move.coder != Some(a)
    ensures Held(F.Effect(objects, load, w, x, move).load, a) == Held(load, a)
  {
  }

  lemma {:induction false} FixPassSpares(cfg: F.FixConfig, listed: seq<Workload>, answers: seq<F.FixAnswers>, st: F.FixState, a: string)
    requires |answers| == |listed| && !FixesReach(cfg, listed, a)
    ensures Held(F.FixPass(cfg, listed, answers, st).load, a) == Held(st.load, a)
  {
    if listed != [] {
      var n := |listed| - 1;
      assert listed[n] in listed && forall w :: w in listed[..n] ==> w in listed;
      FixPassSpares(cfg, listed[..n], answers[..n], st, a);
      FixSpares(cfg, listed[n], answers[n], F.FixPass(cfg, listed[..n], answers[..n], st), a);
    }
  }

  lemma {:induction false} DrainSpares(
    cfg: F.FixConfig, render: Build.Render, queue: seq<F.Queued>, existing: set<string>, st: F.DrainState, a: string)
    requires a != DEFAULT_CODER && (forall lane :: lane in cfg.laneAgents ==> cfg.laneAgents[lane] != a)
    ensures Held(F.Drain(cfg, render, queue, existing, st).load, a) == Held(st.load, a)
  {
    if queue != [] {
      var n := |queue| - 1;
      DrainSpares(cfg, render, queue[..n], existing, st, a);
    }
  }

  // ----- The extra term is real

  function ExampleClaims(render: Build.Render): ClaimConfig {
    ClaimConfig(0, Routing(map["normal" := One("coder")], map[], map[], map[]), map[], map["coder" := Some(1)], {}, render)
  }

  const EXAMPLE_ISSUE := QueueItem(Some("o/r"), Some(7), "normal", "id", "title", true, true, true, false)

  /** A claim pass over one lane holding one issue claims it and charges the lane's one-slot coder. */
  lemma ExampleClaimPass(render: Build.Render, objects: Objects)
    ensures var st := ClaimState(objects, Register({}, 0), 0, map[], 0, [], false);
      ClaimPass(ExampleClaims(render), ClaimWorld(ONCE, []), ["normal"], map["normal" := [EXAMPLE_ISSUE]], st).load
        == Charge(map[], "coder")
  {
    var cfg, world, queue := ExampleClaims(render), ClaimWorld(ONCE, []), [EXAMPLE_ISSUE];
    var st := ClaimState(objects, Register({}, 0), 0, map[], 0, [], false);
    var lanes, snapshot := ["normal"], map["normal" := queue];
    assert lanes[..0] == [];
    assert ClaimPass(cfg, world, lanes, snapshot, st) == DrainFrom(cfg, world, "normal", queue, st, 0);
    ExampleTurn(render, st);
    var next := Next(cfg, world, "normal", queue, st);
    StopKeepsWorld(cfg, world, "normal", queue, next, 1);
  }

  /** The one coder of the lane is checked. */
  lemma ExampleChecked(render: Build.Render, load: Load)
    ensures LaneSaturated(ExampleClaims(render), "normal", load) <==> Held(load, "coder") >= 1
  {
    var cfg := ExampleClaims(render);
    var checked := Candidates("normal", cfg.routing.lane, load, cfg.slots, cfg.fixFirst);
    assert checked == ["coder"];
    assert checked[0] in checked;
    assert FreeSlots("coder", load, cfg.slots) == 1 - Held(load, "coder");
  }

  /** And it is the one picked. */
  lemma ExampleCoder(render: Build.Render, load: Load)
    ensures ClaimCoder(ExampleClaims(render), ToClaimedItem(EXAMPLE_ISSUE, "normal"), load) == "coder"
  {
    var cfg := ExampleClaims(render);
    assert Tiers("normal", Build.LanguageOf("o/r", render.gateProfiles), "o/r", cfg.routing)[0] == Some(One("coder"));
  }

  lemma ExampleTurn(render: Build.Render, st: ClaimState)
    requires st.register == Register({}, 0) && st.creates == 0 && st.load == map[] && !st.raised
    ensures var cfg, world, queue := ExampleClaims(render), ClaimWorld(ONCE, []), [EXAMPLE_ISSUE];
      && GoesOn(cfg, world, "normal", queue, st)
      && var next := Next(cfg, world, "normal", queue, st);
      !next.raised && next.load == Charge(map[], "coder") && !GoesOn(cfg, world, "normal", queue, next)
  {
    ExampleChecked(render, map[]);
    ExampleChecked(render, Charge(map[], "coder"));
    ExampleCoder(render, map[]);
    assert FirstClaim("normal", [EXAMPLE_ISSUE], ONCE, st.register).item == Some(ToClaimedItem(EXAMPLE_ISSUE, "normal"));
  }

  function ExampleFixes(): F.FixConfig {
    F.FixConfig(3, 8, map[F.NORMAL := "coder"], map["coder" := Some(1)])
  }

  /** A drain of one queued fix charges the same coder. */
  lemma ExampleDrain(item: F.FixItem, prompt: string, render: Build.Render, objects: Objects)
    requires item.branch != "" && item.lane == F.NORMAL
    ensures F.Drain(ExampleFixes(), render, [F.Queued(Some(item), prompt, Stored)], {}, F.DrainState(objects, map[], [])).load
      == Charge(map[], "coder")
  {
    var queue := [F.Queued(Some(item), prompt, Stored)];
    assert queue[..0] == [];
    assert FreeSlots("coder", map[], ExampleFixes().slots) > 0;
    assert F.Drain(ExampleFixes(), render, queue[..0], {}, F.DrainState(objects, map[], [])) == F.DrainState(objects, map[], []);
  }

  lemma ExampleAddsUp(c: Charges)
    requires c == Charges(map[], map[], map[], Charge(map[], "coder"), map[], Charge(map[], "coder"))
    ensures var slots: Slots := map["coder" := Some(1)];
      EachBounded(c, slots, "coder") && Charged(c, "coder") == 2 == Limit(c, slots, "coder") + Spare(c, slots, "coder")
  {
  }

  /** The drain after that claim pass cannot see its draw, so the one slot is filled twice in one tick. */
  lemma CopyHidesClaims(item: F.FixItem, prompt: string, render: Build.Render, objects: Objects)
    requires item.branch != "" && item.lane == F.NORMAL
    ensures var cfg := ExampleClaims(render);
      var st := ClaimState(objects, Register({}, 0), 0, map[], 0, [], false);
      var claimed := ClaimPass(cfg, ClaimWorld(ONCE, []), ["normal"], map["normal" := [EXAMPLE_ISSUE]], st);
      var drained := F.Drain(ExampleFixes(), render, [F.Queued(Some(item), prompt, Stored)], {}, F.DrainState(claimed.objects, map[], []));
      var c := Charges(map[], map[], map[], claimed.load, map[], drained.load);
      && EachBounded(c, cfg.slots, "coder")
      && Charged(c, "coder") == 2 == Limit(c, cfg.slots, "coder") + Spare(c, cfg.slots, "coder")
  {
    var st := ClaimState(objects, Register({}, 0), 0, map[], 0, [], false);
    var claimed := ClaimPass(ExampleClaims(render), ClaimWorld(ONCE, []), ["normal"], map["normal" := [EXAMPLE_ISSUE]], st);
    ExampleClaimPass(render, objects);
    ExampleDrain(item, prompt, render, claimed.objects);
    ExampleAddsUp(Charges(map[], map[], map[], Charge(map[], "coder"), map[], Charge(map[], "coder")));
  }
}
