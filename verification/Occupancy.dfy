/** The Workloads a pass really puts on a coder, against what it charges for them. */
module Occupancy {
  import opened Outcomes
  import opened Workloads
  import opened Coders
  import opened Slug
  import opened Build
  import opened LoadIndex
  import R = Retry
  import RL = RetryLaws
  import F = PrFix
  import I = InfraPass
  import C = Claims
  import Infra

  // ----- Workloads newly active on a coder

  predicate Active(w: Workload) {
    w.phase !in {Succeeded, Failed, Cancelled, TimedOut, Completed}
  }

  /** An active Workload of a stands under n that did not stand there before. */
  predicate IsNew(before: Objects, after: Objects, a: string, n: string) {
    n in after && Active(after[n]) && CoderOf(after[n]) == Some(a) && !(n in before && before[n] == after[n])
  }

  function NewOn(before: Objects, after: Objects, a: string): set<string> {
    set n | n in after && IsNew(before, after, a, n)
  }

  lemma {:induction false} SubsetIsSmaller(s: set<string>, t: set<string>)
    requires s <= t
    ensures |s| <= |t|
  {
    if s != {} {
      var x :| x in s;
      SubsetIsSmaller(s - {x}, t - {x});
    }
  }

  lemma UnionIsSmaller(s: set<string>, t: set<string>, u: set<string>)
    requires s <= t + u
    ensures |s| <= |t| + |u|
  {
    SubsetIsSmaller(s, t + u);
    assert |t + u| == |t| + |u| - |t * u|;
  }

  /** Two steps add up. */
  lemma NewAddsUp(start: Objects, middle: Objects, after: Objects, a: string)
    ensures |NewOn(start, after, a)| <= |NewOn(start, middle, a)| + |NewOn(middle, after, a)|
  {
    UnionIsSmaller(NewOn(start, after, a), NewOn(start, middle, a), NewOn(middle, after, a));
  }

  /** What is newly on a was charged to it between the two loads, but for missed of them. */
  predicate Recorded(before: Objects, after: Objects, from: Load, to: Load, missed: nat, a: string) {
    |NewOn(before, after, a)| <= Held(to, a) - Held(from, a) + missed
  }

  ghost predicate OnlyAt(before: Objects, after: Objects, m: string) {
    forall n :: n != m ==> (n in before <==> n in after) && (n in before ==> before[n] == after[n])
  }

  function Bit(b: bool): nat {
    if b then 1 else 0
  }

  lemma NewAtOneName(before: Objects, after: Objects, a: string, m: string)
    requires OnlyAt(before, after, m)
    ensures |NewOn(before, after, a)| == Bit(IsNew(before, after, a, m))
  {
    if IsNew(before, after, a, m) {
      assert NewOn(before, after, a) == {m};
    } else {
      assert NewOn(before, after, a) == {};
    }
  }

  lemma NewElsewhere(start: Objects, middle: Objects, after: Objects, a: string, m: string, n: string)
    requires OnlyAt(middle, after, m) && n != m
    ensures n in NewOn(start, after, a) <==> n in NewOn(start, middle, a)
  {
  }

  /** A step at a name not touched before adds exactly its own Workload. */
  lemma NewAtFreshName(start: Objects, middle: Objects, after: Objects, a: string, m: string)
    requires OnlyAt(middle, after, m) && RL.Untouched(start, middle, m)
    ensures |NewOn(start, after, a)| == |NewOn(start, middle, a)| + Bit(IsNew(middle, after, a, m))
  {
    var soFar, now := NewOn(start, middle, a), NewOn(start, after, a);
    var bit := IsNew(middle, after, a, m);
    assert m !in soFar && (m in now <==> bit);
    forall n ensures n in now <==> n in soFar || (bit && n == m) {
      if n != m {
        NewElsewhere(start, middle, after, a, m, n);
      }
    }
    assert now == if bit then soFar + {m} else soFar;
  }

  // ----- Retries

  lemma RetryRunsOn(cfg: R.RetryConfig, w: Workload, x: R.Answers, infra: bool)
    ensures var next, coder := R.RetryManifest(cfg, w, x, infra), R.RetryCoder(cfg, R.CurrentItem(cfg, w, x));
      CoderOf(next) == Some(coder) && Active(next)
  {
    var item := R.CurrentItem(cfg, w, x);
    var attempt := if infra then AttemptOf(w) else AttemptOf(w) + 1;
    var infraAttempt := if infra then InfraAttemptOf(w) + 1 else InfraAttemptOf(w);
    var revise := if R.Pushed(x) == Yes then BranchName(item.repo, item.issueNumber) else "";
    BuiltWorkloadNamesCoder(item, attempt, infraAttempt, R.RetryCoder(cfg, item), x.feedback, "", revise, cfg.render);
  }

  /** The create of a's retry raised, but only after it was stored: nobody is charged for it. */
  predicate Unrecorded(cfg: R.RetryConfig, w: Workload, x: R.Answers, load: Load, a: string) {
    var move := R.Decide(cfg, w, x, load);
    move.Recreate? && move.coder == a && x.delete == Gone && x.create == RaisedStored
  }

  predicate RecreateFor(move: R.Move, w: Workload) {
    move.Recreate? ==> move.next.name == w.name && CoderOf(move.next) == Some(move.coder) && Active(move.next)
  }

  lemma DecisionRunsOn(cfg: R.RetryConfig, w: Workload, x: R.Answers, load: Load)
    requires RL.IssueNamed(w)
    ensures RecreateFor(R.Decide(cfg, w, x, load), w)
  {
    RL.DecisionIsSound(cfg, w, x, load);
    RetryRunsOn(cfg, w, x, R.IsInfra(w, x));
  }

  lemma CarryIsNew(objects: Objects, load: Load, w: Workload, x: R.Answers, move: R.Move, a: string)
    requires RecreateFor(move, w)
    ensures var e := R.Carry(objects, load, w.name, x, move);
      && OnlyAt(objects, e.objects, w.name)
      && Held(load, a) <= Held(e.load, a)
      && (w.name in objects && objects[w.name].phase == Failed ==>
        Bit(IsNew(objects, e.objects, a, w.name)) == Held(e.load, a) - Held(load, a)
          + Bit(move.Recreate? && move.coder == a && x.delete == Gone && x.create == RaisedStored))
  {
  }

  /** How many of the pass's retries for a were stored without being charged. */
  function UnrecordedIn(cfg: R.RetryConfig, listed: seq<Workload>, answers: seq<R.Answers>, st: R.PassState, a: string): nat
    requires |answers| == |listed|
  {
    if listed == [] then 0
    else
      var n := |listed| - 1;
      var before := R.Pass(cfg, listed[..n], answers[..n], st);
      UnrecordedIn(cfg, listed[..n], answers[..n], st, a)
        + Bit(!before.aborted && Unrecorded(cfg, listed[n], answers[n], before.load, a))
  }

  predicate AllFailed(listed: seq<Workload>) {
    forall w :: w in listed ==> w.phase == Failed
  }

  /** One Failed Workload handled: what is new is what was charged, plus an unrecorded retry. */
  lemma HandleOccupiesExactly(cfg: R.RetryConfig, w: Workload, x: R.Answers, found: Objects, st: R.PassState, a: string)
    requires w.name in st.objects && st.objects[w.name] == w && w.phase == Failed && RL.IssueNamed(w)
    requires RL.Untouched(found, st.objects, w.name)
    ensures var after := R.Handle(cfg, w, x, st);
      |NewOn(found, after.objects, a)| == |NewOn(found, st.objects, a)| + Held(after.load, a) - Held(st.load, a)
        + Bit(Unrecorded(cfg, w, x, st.load, a))
  {
    DecisionRunsOn(cfg, w, x, st.load);
    CarryIsNew(st.objects, st.load, w, x, R.Decide(cfg, w, x, st.load), a);
    NewAtFreshName(found, st.objects, R.Handle(cfg, w, x, st).objects, a, w.name);
  }

  /** A pass newly occupies a coder exactly as often as it charges it, plus its unrecorded retries. */
  lemma {:induction false} RetryOccupiesExactly(
    cfg: R.RetryConfig, listed: seq<Workload>, answers: seq<R.Answers>, st: R.PassState, a: string)
    requires |answers| == |listed| && RL.Shows(listed, st.objects) && AllFailed(listed)
    ensures var after := R.Pass(cfg, listed, answers, st);
      |NewOn(st.objects, after.objects, a)| == Held(after.load, a) - Held(st.load, a) + UnrecordedIn(cfg, listed, answers, st, a)
  {
    if listed == [] {
      assert NewOn(st.objects, st.objects, a) == {};
    } else {
      var n := |listed| - 1;
      var before := R.Pass(cfg, listed[..n], answers[..n], st);
      RL.ShowsPrefix(listed, n, st.objects);
      RetryOccupiesExactly(cfg, listed[..n], answers[..n], st, a);
      RL.PassFrame(cfg, listed[..n], answers[..n], st, listed[n].name);
      if !before.aborted {
        assert listed[n] in listed;
        HandleOccupiesExactly(cfg, listed[n], answers[n], st.objects, before, a);
      }
    }
  }

  /** The answers that say a retry of a was stored although its create raised. */
  function RetriesRaised(cfg: R.RetryConfig, listed: seq<Workload>, answers: seq<R.Answers>, a: string): nat
    requires |answers| == |listed|
  {
    if listed == [] then 0
    else
      var n := |listed| - 1;
      var coder := R.RetryCoder(cfg, R.CurrentItem(cfg, listed[n], answers[n]));
      RetriesRaised(cfg, listed[..n], answers[..n], a) + Bit(answers[n].create == RaisedStored && coder == a)
  }

  lemma {:induction false} UnrecordedBelow(cfg: R.RetryConfig, listed: seq<Workload>, answers: seq<R.Answers>, st: R.PassState, a: string)
    requires |answers| == |listed|
    ensures UnrecordedIn(cfg, listed, answers, st, a) <= RetriesRaised(cfg, listed, answers, a)
  {
    if listed != [] {
      var n := |listed| - 1;
      UnrecordedBelow(cfg, listed[..n], answers[..n], st, a);
      DecisionCoder(cfg, listed[n], answers[n], R.Pass(cfg, listed[..n], answers[..n], st).load);
    }
  }

  lemma DecisionCoder(cfg: R.RetryConfig, w: Workload, x: R.Answers, load: Load)
    ensures var move := R.Decide(cfg, w, x, load); move.Recreate? ==> move.coder == R.RetryCoder(cfg, R.CurrentItem(cfg, w, x))
  {
  }

  // ----- The other passes

  /** a's redrive was stored although its create raised. */
  predicate UnrecordedRedrive(cfg: I.InfraConfig, issue: Infra.Issue, x: I.InfraAnswers, a: string) {
    I.RedriveCoder(cfg, issue) == a && x.create == RaisedStored
  }

  function UnrecordedRedrives(cfg: I.InfraConfig, issues: seq<Infra.Issue>, answers: seq<I.InfraAnswers>, a: string): nat
    requires |answers| == |issues|
  {
    if issues == [] then 0
    else
      var n := |issues| - 1;
      UnrecordedRedrives(cfg, issues[..n], answers[..n], a) + Bit(UnrecordedRedrive(cfg, issues[n], answers[n], a))
  }

  lemma RedriveRunsOn(cfg: I.InfraConfig, issue: Infra.Issue)
    ensures CoderOf(I.RedriveManifest(cfg, issue)) == Some(I.RedriveCoder(cfg, issue))
  {
    var item := I.RedriveItem(cfg, issue);
    BuiltWorkloadNamesCoder(item, 1, 1, I.RedriveCoder(cfg, issue), "", "", BranchName(item.repo, item.issueNumber), cfg.render);
  }

  /** A create adds at most one Workload, on the coder it was rendered for. */
  lemma CreateIsNew(objects: Objects, w: Workload, coder: string, reply: CreateReply, a: string)
    requires CoderOf(w) == Some(coder)
    ensures |NewOn(objects, AfterCreate(objects, w, reply), a)| <= Bit(coder == a && reply != RaisedAbsent)
  {
    NewAtOneName(objects, AfterCreate(objects, w, reply), a, w.name);
  }

  lemma NothingNew(objects: Objects, a: string)
    ensures NewOn(objects, objects, a) == {}
  {
  }

  lemma RedriveOccupies(cfg: I.InfraConfig, probe: I.Probe, issue: Infra.Issue, x: I.InfraAnswers, objects: Objects, load: Load, a: string)
    ensures var e := I.HandleIssue(cfg, probe, issue, x, objects, load);
      |NewOn(objects, e.objects, a)| <= Held(e.load, a) - Held(load, a) + Bit(UnrecordedRedrive(cfg, issue, x, a))
  {
    RedriveRunsOn(cfg, issue);
    CreateIsNew(objects, I.RedriveManifest(cfg, issue), I.RedriveCoder(cfg, issue), x.create, a);
    NothingNew(objects, a);
  }

  lemma {:induction false} RedrivesOccupy(
    cfg: I.InfraConfig, probe: I.Probe, issues: seq<Infra.Issue>, answers: seq<I.InfraAnswers>, st: I.InfraState, a: string)
    requires |answers| == |issues|
    ensures var after := I.ParkedPass(cfg, probe, issues, answers, st);
      |NewOn(st.objects, after.objects, a)| <= Held(after.load, a) - Held(st.load, a) + UnrecordedRedrives(cfg, issues, answers, a)
  {
    if issues == [] {
      NothingNew(st.objects, a);
    } else {
      var n := |issues| - 1;
      var before := I.ParkedPass(cfg, probe, issues[..n], answers[..n], st);
      RedrivesOccupy(cfg, probe, issues[..n], answers[..n], st, a);
      RedriveOccupies(cfg, probe, issues[n], answers[n], before.objects, before.load, a);
      NewAddsUp(st.objects, before.objects, I.ParkedPass(cfg, probe, issues, answers, st).objects, a);
    }
  }

  /** The last create of a claim pass raised after it was stored. */
  predicate UnrecordedClaim(world: C.ClaimWorld, st: C.ClaimState) {
    st.raised && st.creates > 0 && C.CreateAt(world, st.creates - 1) == RaisedStored
  }

  predicate ClaimsOccupy(world: C.ClaimWorld, origin: C.ClaimState, st: C.ClaimState, a: string) {
    |NewOn(origin.objects, st.objects, a)| <= Held(st.load, a) - Held(origin.load, a) + Bit(UnrecordedClaim(world, st))
  }

  lemma ClaimOccupies(
    cfg: C.ClaimConfig, world: C.ClaimWorld, lane: string, item: ClaimedItem, register: C.Register,
    origin: C.ClaimState, st: C.ClaimState, a: string)
    requires !st.raised && ClaimsOccupy(world, origin, st, a)
    ensures ClaimsOccupy(world, origin, C.Create(cfg, world, lane, item, register, st), a)
  {
    var coder, reply := C.ClaimCoder(cfg, item, st.load), C.CreateAt(world, st.creates);
    var manifest := C.ClaimManifest(cfg, item, coder);
    BuiltWorkloadNamesCoder(item, 1, 1, coder, "", C.RevisionCoder(item.lane, cfg.revisionAgents, cfg.routing.roles), "", cfg.render);
    CreateIsNew(st.objects, manifest, coder, reply, a);
    NewAddsUp(origin.objects, st.objects, AfterCreate(st.objects, manifest, reply), a);
  }

  lemma {:induction false} LaneOccupies(
    cfg: C.ClaimConfig, world: C.ClaimWorld, lane: string, queue: seq<C.QueueItem>, origin: C.ClaimState, st: C.ClaimState,
    here: nat, a: string)
    requires C.Ends(cfg, world)
    requires !st.raised && ClaimsOccupy(world, origin, st, a)
    ensures ClaimsOccupy(world, origin, C.DrainFrom(cfg, world, lane, queue, st, here), a)
    decreases C.Headroom(cfg, st.inProgress), C.KeysIn(queue) - st.register.keys
  {
    if C.GoesOn(cfg, world, lane, queue, st) {
      var claim, next := C.FirstClaim(lane, queue, world.granting, st.register), C.Next(cfg, world, lane, queue, st);
      ClaimOccupies(cfg, world, lane, claim.item.value, claim.register, origin, st, a);
      if !next.raised {
        LaneOccupies(cfg, world, lane, queue, origin, next, here + 1, a);
      }
    } else {
      C.StopKeepsWorld(cfg, world, lane, queue, st, here);
    }
  }

  lemma {:induction false} ClaimPassOccupies(
    cfg: C.ClaimConfig, world: C.ClaimWorld, lanes: seq<string>, snapshot: C.Snapshot, st: C.ClaimState, a: string)
    requires C.Ends(cfg, world)
    requires !st.raised
    ensures ClaimsOccupy(world, st, C.ClaimPass(cfg, world, lanes, snapshot, st), a)
  {
    if lanes == [] {
      NothingNew(st.objects, a);
    } else {
      var n := |lanes| - 1;
      ClaimPassOccupies(cfg, world, lanes[..n], snapshot, st, a);
      var before := C.ClaimPass(cfg, world, lanes[..n], snapshot, st);
      if !before.raised {
        LaneOccupies(cfg, world, lanes[n], C.QueueFor(snapshot, lanes[n]), st, before, 0, a);
      }
    }
  }

  // ----- Fixes

  /** A fix Workload as the bridge renders it: its coder is the one on its first issue-fix step. */
  predicate FixShaped(w: Workload) {
    && !(w.spec.coder.Some? && w.spec.coder.value != "")
    && F.CurrentCoder(w.spec.pipeline).Some? && F.CurrentCoder(w.spec.pipeline).value != ""
  }

  lemma {:induction false} StepCoderIsCurrent(steps: seq<Step>)
    requires F.CurrentCoder(steps).Some? && F.CurrentCoder(steps).value != ""
    ensures StepCoder(steps) == F.CurrentCoder(steps)
  {
    if steps[0].kind != IssueFix {
      StepCoderIsCurrent(steps[1..]);
    }
  }

  lemma {:induction false} SwappedCoder(steps: seq<Step>, coder: string)
    requires F.CurrentCoder(steps).Some?
    ensures F.CurrentCoder(F.Swapped(steps, coder)) == Some(coder)
  {
    var swapped := F.Swapped(steps, coder);
    assert swapped[1..] == F.Swapped(steps[1..], coder);
    if steps[0].kind != IssueFix {
      SwappedCoder(steps[1..], coder);
    }
  }

  predicate RemakeFor(move: F.FixMove, w: Workload) {
    move.Remake? ==> move.next.name == w.name && move.coder == CoderOf(move.next) && FixShaped(move.next)
  }

  lemma SameTierRunsOn(cfg: F.FixConfig, w: Workload, x: F.FixAnswers, attempt: int, load: Load)
    requires FixShaped(w)
    ensures RemakeFor(F.SameTierMove(cfg, w, x, attempt, load), w)
  {
    StepCoderIsCurrent(w.spec.pipeline);
  }

  lemma NextTierRunsOn(cfg: F.FixConfig, w: Workload, load: Load)
    requires FixShaped(w)
    ensures RemakeFor(F.NextTierMove(cfg, w, load), w)
  {
    var coder := F.FixCoderFor(F.ESCALATED, cfg.laneAgents);
    SwappedCoder(w.spec.pipeline, coder);
    StepCoderIsCurrent(F.Swapped(w.spec.pipeline, coder));
  }

  /** A shaped fix is remade into a shaped fix, and the coder charged for it is the one it runs on. */
  lemma RemadeRunsOn(cfg: F.FixConfig, w: Workload, x: F.FixAnswers, load: Load)
    requires FixShaped(w)
    ensures RemakeFor(F.DecideFix(cfg, w, x, load), w)
  {
    if F.AttemptNote(w).Some? {
      SameTierRunsOn(cfg, w, x, F.AttemptNote(w).value, load);
      NextTierRunsOn(cfg, w, load);
    }
  }

  lemma FreshFixIsShaped(item: F.FixItem, coder: string, prompt: string, render: Render)
    requires coder != ""
    ensures var w := F.BuildFix(item, coder, prompt, render); FixShaped(w) && CoderOf(w) == Some(coder)
  {
    var w := F.BuildFix(item, coder, prompt, render);
    assert w.spec.pipeline[0].agent == Some(coder);
  }

  /** a's fix was stored although its create raised. */
  predicate UnrecordedFix(cfg: F.FixConfig, w: Workload, x: F.FixAnswers, a: string) {
    x.create == RaisedStored && (F.CurrentCoder(w.spec.pipeline) == Some(a) || F.FixCoderFor(F.ESCALATED, cfg.laneAgents) == a)
  }

  function UnrecordedFixes(cfg: F.FixConfig, listed: seq<Workload>, answers: seq<F.FixAnswers>, a: string): nat
    requires |answers| == |listed|
  {
    if listed == [] then 0
    else
      var n := |listed| - 1;
      UnrecordedFixes(cfg, listed[..n], answers[..n], a) + Bit(UnrecordedFix(cfg, listed[n], answers[n], a))
  }

  lemma EffectIsNew(objects: Objects, load: Load, w: Workload, x: F.FixAnswers, move: F.FixMove, a: string)
    requires RemakeFor(move, w)
    ensures var e := F.Effect(objects, load, w, x, move);
      && OnlyAt(objects, e.objects, w.name)
      && Bit(IsNew(objects, e.objects, a, w.name)) <= Held(e.load, a) - Held(load, a)
          + Bit(move.Remake? && move.coder == Some(a) && x.create == RaisedStored)
  {
  }

  lemma FixCoderIs(cfg: F.FixConfig, w: Workload, x: F.FixAnswers, load: Load)
    ensures var move := F.DecideFix(cfg, w, x, load);
      move.Remake? ==> move.coder == F.CurrentCoder(w.spec.pipeline) || move.coder == Some(F.FixCoderFor(F.ESCALATED, cfg.laneAgents))
  {
  }

  lemma FixOccupies(cfg: F.FixConfig, w: Workload, x: F.FixAnswers, st: F.FixState, a: string)
    requires FixShaped(w)
    ensures var after := F.HandleFix(cfg, w, x, st);
      |NewOn(st.objects, after.objects, a)| <= Held(after.load, a) - Held(st.load, a) + Bit(UnrecordedFix(cfg, w, x, a))
  {
    var move := F.DecideFix(cfg, w, x, st.load);
    RemadeRunsOn(cfg, w, x, st.load);
    FixCoderIs(cfg, w, x, st.load);
    EffectIsNew(st.objects, st.load, w, x, move, a);
    NewAtOneName(st.objects, F.HandleFix(cfg, w, x, st).objects, a, w.name);
  }

  predicate AllShaped(listed: seq<Workload>) {
    forall w :: w in listed ==> FixShaped(w)
  }

  lemma {:induction false} FixesOccupy(cfg: F.FixConfig, listed: seq<Workload>, answers: seq<F.FixAnswers>, st: F.FixState, a: string)
    requires |answers| == |listed| && AllShaped(listed)
    ensures var after := F.FixPass(cfg, listed, answers, st);
      |NewOn(st.objects, after.objects, a)| <= Held(after.load, a) - Held(st.load, a) + UnrecordedFixes(cfg, listed, answers, a)
  {
    if listed == [] {
      NothingNew(st.objects, a);
    } else {
      var n := |listed| - 1;
      var before := F.FixPass(cfg, listed[..n], answers[..n], st);
      assert listed[n] in listed;
      FixesOccupy(cfg, listed[..n], answers[..n], st, a);
      FixOccupies(cfg, listed[n], answers[n], before, a);
      NewAddsUp(st.objects, before.objects, F.FixPass(cfg, listed, answers, st).objects, a);
    }
  }

  predicate UnrecordedQueued(cfg: F.FixConfig, q: F.Queued, a: string) {
    q.item.Some? && F.FixCoderFor(q.item.value.lane, cfg.laneAgents) == a && q.create == RaisedStored
  }

  function UnrecordedDrains(cfg: F.FixConfig, queue: seq<F.Queued>, a: string): nat {
    if queue == [] then 0
    else UnrecordedDrains(cfg, queue[..|queue| - 1], a) + Bit(UnrecordedQueued(cfg, queue[|queue| - 1], a))
  }

  lemma DrainOneOccupies(
    cfg: F.FixConfig, render: Render, q: F.Queued, existing: set<string>, objects: Objects, load: Load, a: string)
    ensures var e := F.DrainOne(cfg, render, q, existing, objects, load);
      |NewOn(objects, e.objects, a)| <= Held(e.load, a) - Held(load, a) + Bit(UnrecordedQueued(cfg, q, a))
  {
    NothingNew(objects, a);
    if q.item.Some? {
      var coder := F.FixCoderFor(q.item.value.lane, cfg.laneAgents);
      var w := F.BuildFix(q.item.value, coder, q.prompt, render);
      FreshFixIsShaped(q.item.value, coder, q.prompt, render);
      CreateIsNew(objects, w, coder, q.create, a);
    }
  }

  lemma {:induction false} DrainsOccupy(
    cfg: F.FixConfig, render: Render, queue: seq<F.Queued>, existing: set<string>, st: F.DrainState, a: string)
    ensures var after := F.Drain(cfg, render, queue, existing, st);
      |NewOn(st.objects, after.objects, a)| <= Held(after.load, a) - Held(st.load, a) + UnrecordedDrains(cfg, queue, a)
  {
    if queue == [] {
      NothingNew(st.objects, a);
    } else {
      var n := |queue| - 1;
      var before := F.Drain(cfg, render, queue[..n], existing, st);
      DrainsOccupy(cfg, render, queue[..n], existing, st, a);
      DrainOneOccupies(cfg, render, queue[n], existing, before.objects, before.load, a);
      NewAddsUp(st.objects, before.objects, F.Drain(cfg, render, queue, existing, st).objects, a);
    }
  }

  // ----- From charges to occupied slots

  predicate Holds(w: Workload, reply: Try<Option<seq<TaskItem>>>, a: string) {
    RunsOn(w, a) && (Resolved(reply) ==> HoldsSlot(w, reply.value.value))
  }

  /** The listed Workloads that hold a slot of a, as far as the task list tells. */
  function Holders(workloads: seq<Workload>, reply: Try<Option<seq<TaskItem>>>, a: string): set<string> {
    set w | w in workloads && Holds(w, reply, a) :: w.name
  }

  lemma HoldersSnoc(front: seq<Workload>, w: Workload, reply: Try<Option<seq<TaskItem>>>, a: string)
    ensures Holders(front + [w], reply, a) == Holders(front, reply, a) + (if Holds(w, reply, a) then {w.name} else {})
  {
  }

  lemma SlotsHeldSnoc(front: seq<Workload>, w: Workload, reply: Try<Option<seq<TaskItem>>>, a: string)
    ensures SlotsHeld(front + [w], reply, a) == SlotsHeld(front, reply, a) + Bit(Holds(w, reply, a))
  {
    assert (front + [w])[..|front|] == front;
  }

  /** The load the tick starts from counts them. */
  lemma {:induction false} HoldersAreCounted(workloads: seq<Workload>, reply: Try<Option<seq<TaskItem>>>, a: string)
    requires RL.DistinctListing(workloads)
    ensures |Holders(workloads, reply, a)| == SlotsHeld(workloads, reply, a)
  {
    if workloads == [] {
      assert Holders(workloads, reply, a) == {};
    } else {
      var n := |workloads| - 1;
      var w, front := workloads[n], workloads[..n];
      HoldersAreCounted(front, reply, a);
      HoldersSnoc(front, w, reply, a);
      SlotsHeldSnoc(front, w, reply, a);
      assert workloads == front + [w];
      assert w.name !in Holders(front, reply, a);
    }
  }

  /** Still holding: a Workload that held a slot and was left as it was, or a new active one, whose tasks have not started. */
  predicate StillHolds(before: Objects, after: Objects, holders: set<string>, a: string, n: string) {
    IsNew(before, after, a, n) || (n in holders && n in before && n in after && before[n] == after[n])
  }

  function Occupied(before: Objects, after: Objects, holders: set<string>, a: string): set<string> {
    set n | n in after && StillHolds(before, after, holders, a, n)
  }

  lemma OccupiedAddsUp(before: Objects, after: Objects, holders: set<string>, a: string)
    ensures |Occupied(before, after, holders, a)| <= |holders| + |NewOn(before, after, a)|
  {
    UnionIsSmaller(Occupied(before, after, holders, a), holders, NewOn(before, after, a));
  }
}
