/** One tick from the load count to the sweep, with every place an exception can end it. */
module Ticks {
  import opened Outcomes
  import opened Slug
  import opened Workloads
  import opened Coders
  import opened Registers
  import opened LoadIndex
  import opened SlotBounds
  import opened Occupancy
  import opened Bids
  import opened Stranded
  import B = Build
  import R = Retry
  import RL = RetryLaws
  import F = PrFix
  import FL = PrFixLaws
  import FP = PrFixPasses
  import I = InfraPass
  import C = Claims
  import V = ReviewTransition
  import Infra

  /** The listings a tick makes outside any handler. */
  datatype Listing =
    | LoadListing | FailedListing | ActiveListing | FixListing | FixNames | ReviewListing | NameListing | ClaimedListing

  /** What a tick is configured with and what it is shown; broken are the listings that raise when they are made. */
  datatype TickInput = TickInput(
    broken: set<Listing>,
    workloads: seq<Workload>, tasks: Try<Option<seq<TaskItem>>>,
    retry: R.RetryConfig, failed: seq<Workload>, retryAnswers: seq<R.Answers>,
    infra: I.InfraConfig, probe: I.Probe, parked: seq<Infra.Issue>, infraAnswers: seq<I.InfraAnswers>,
    claim: C.ClaimConfig, world: C.ClaimWorld, lanes: seq<string>, snapshot: C.Snapshot, active: nat,
    fixEnabled: bool, fix: F.FixConfig, fixes: seq<Workload>, fixAnswers: seq<F.FixAnswers>,
    render: B.Render, queue: seq<F.Queued>,
    turns: seq<V.Turn>,
    claims: seq<ClaimedIssue>, sweepWrites: seq<SweepWrites>)

  /** One answer for everything listed. */
  predicate Sized(t: TickInput) {
    && |t.retryAnswers| == |t.failed| && |t.infraAnswers| == |t.parked| && |t.fixAnswers| == |t.fixes|
    && |t.sweepWrites| == |t.claims|
  }

  ghost predicate WellFormed(t: TickInput, objects: Objects) {
    && Sized(t) && C.Ends(t.claim, t.world)
    && t.infra.slots == t.claim.slots == t.fix.slots == t.retry.slots
    && RL.Shows(t.failed, objects) && AllFailed(t.failed)
    && (forall w :: w in t.fixes ==> !RL.Names(t.failed, w.name))
  }

  /** The Workloads before stay as they were. */
  ghost predicate KeepsAll(before: Objects, after: Objects) {
    forall n :: n in before ==> n in after && after[n] == before[n]
  }

  /** So do those of the listed issues. */
  ghost predicate KeepsListed(failed: seq<Workload>, before: Objects, after: Objects) {
    forall w :: w in failed && w.name in before ==> w.name in after && after[w.name] == before[w.name]
  }

  // ----- The passes that create Workloads, as functions of what the tick finds

  /** The world a tick finds, and the load it counted. */
  datatype Found = Found(objects: Objects, start: Load, labels: I.LabelTable, register: C.Register)

  predicate RetryStops(t: TickInput)
    requires Sized(t)
  {
    FailedListing in t.broken || RL.SomeAborts(t.retry, t.failed, t.retryAnswers)
  }

  /** What the retry pass leaves. */
  function RetryEnd(t: TickInput, v: Found): R.PassState
    requires Sized(t)
  {
    var st := R.PassState(v.objects, v.start, [], false);
    if FailedListing in t.broken then st else R.Pass(t.retry, t.failed, t.retryAnswers, st)
  }

  /** What the infra pass leaves, if the retries let the tick go on to it. */
  function RedriveEnd(t: TickInput, v: Found): I.InfraState
    requires Sized(t)
  {
    var before := RetryEnd(t, v);
    var st := I.InfraState(before.objects, before.load, v.labels, []);
    if RetryStops(t) then st else I.ParkedPass(t.infra, t.probe, t.parked, t.infraAnswers, st)
  }

  predicate ClaimStops(t: TickInput)
    requires Sized(t)
  {
    RetryStops(t) || (t.claim.maxInProgress != 0 && ActiveListing in t.broken)
  }

  /** What the claims leave; they count on a copy of the load. */
  function ClaimEnd(t: TickInput, v: Found): C.ClaimState
    requires Sized(t) && C.Ends(t.claim, t.world)
  {
    var before := RedriveEnd(t, v);
    var st := C.ClaimState(before.objects, v.register, 0, before.load, t.active, [], false);
    if ClaimStops(t) then st else C.ClaimPass(t.claim, t.world, t.lanes, t.snapshot, st)
  }

  predicate FixStops(t: TickInput, v: Found)
    requires Sized(t) && C.Ends(t.claim, t.world)
  {
    ClaimStops(t) || ClaimEnd(t, v).raised || (t.fixEnabled && FixListing in t.broken)
  }

  /** What settling and retrying fixes leaves; it goes on from the load the claims copied. */
  function FixEnd(t: TickInput, v: Found): F.FixState
    requires Sized(t) && C.Ends(t.claim, t.world)
  {
    var st := F.FixState(ClaimEnd(t, v).objects, RedriveEnd(t, v).load, [], []);
    if FixStops(t, v) || !t.fixEnabled then st else F.FixPass(t.fix, t.fixes, t.fixAnswers, st)
  }

  /** An exception comes out of one of these passes, and ends the tick. */
  predicate CreatingStops(t: TickInput, v: Found)
    requires Sized(t) && C.Ends(t.claim, t.world)
  {
    FixStops(t, v) || (t.fixEnabled && FixNames in t.broken)
  }

  /** The names of the fixes a cluster holds. */
  function FixNamesIn(objects: Objects): set<string> {
    set n | n in objects && objects[n].createdBy == PrFixBridge
  }

  /** What draining the queue of new fixes leaves. */
  function DrainEnd(t: TickInput, v: Found): F.DrainState
    requires Sized(t) && C.Ends(t.claim, t.world)
  {
    var before := FixEnd(t, v);
    var st := F.DrainState(before.objects, before.load, []);
    if CreatingStops(t, v) || !t.fixEnabled then st else F.Drain(t.fix, t.render, t.queue, FixNamesIn(before.objects), st)
  }

  function ChargesOf(t: TickInput, v: Found): Charges
    requires Sized(t) && C.Ends(t.claim, t.world)
  {
    Charges(v.start, RetryEnd(t, v).load, RedriveEnd(t, v).load, ClaimEnd(t, v).load, FixEnd(t, v).load, DrainEnd(t, v).load)
  }

  // ----- What each pass keeps to

  lemma RetriesFine(t: TickInput, v: Found, a: string)
    requires WellFormed(t, v.objects)
    ensures var after := RetryEnd(t, v);
      Recorded(v.objects, after.objects, v.start, after.load, RetriesRaised(t.retry, t.failed, t.retryAnswers, a), a)
    ensures t.retry.slots != map[] ==> Bounded(v.start, RetryEnd(t, v).load, t.retry.slots, a)
  {
    var st := R.PassState(v.objects, v.start, [], false);
    NothingRecorded(v.objects, v.start);
    RetryOccupiesExactly(t.retry, t.failed, t.retryAnswers, st, a);
    UnrecordedBelow(t.retry, t.failed, t.retryAnswers, st, a);
    if t.retry.slots != map[] {
      RetryPassBounded(t.retry, t.failed, t.retryAnswers, st, a);
    }
  }

  lemma RedrivesFine(t: TickInput, v: Found, a: string)
    requires Sized(t) && t.infra.slots == t.retry.slots
    ensures var before, after := RetryEnd(t, v), RedriveEnd(t, v);
      && Recorded(before.objects, after.objects, before.load, after.load, UnrecordedRedrives(t.infra, t.parked, t.infraAnswers, a), a)
      && (t.retry.slots != map[] ==> Bounded(before.load, after.load, t.retry.slots, a))
  {
    var before := RetryEnd(t, v);
    var st := I.InfraState(before.objects, before.load, v.labels, []);
    NothingRecorded(before.objects, before.load);
    RedrivesOccupy(t.infra, t.probe, t.parked, t.infraAnswers, st, a);
    if t.retry.slots != map[] {
      InfraPassBounded(t.infra, t.probe, t.parked, t.infraAnswers, st, a);
    }
  }

  lemma ClaimsFine(t: TickInput, v: Found, a: string)
    requires Sized(t) && C.Ends(t.claim, t.world) && t.claim.slots == t.retry.slots
    ensures var before, after := RedriveEnd(t, v), ClaimEnd(t, v);
      && Recorded(before.objects, after.objects, before.load, after.load, Bit(UnrecordedClaim(t.world, after)), a)
      && (C.CheckSeesCoder(t.claim, t.lanes) ==> Bounded(before.load, after.load, t.retry.slots, a))
      && (!LanesReach(t.claim, t.lanes, a) ==> Held(after.load, a) == Held(before.load, a))
  {
    var before := RedriveEnd(t, v);
    var st := C.ClaimState(before.objects, v.register, 0, before.load, t.active, [], false);
    NothingRecorded(before.objects, before.load);
    if !ClaimStops(t) {
      ClaimPassOccupies(t.claim, t.world, t.lanes, t.snapshot, st, a);
      C.PassFacts(t.claim, t.world, t.lanes, t.snapshot, before.objects, v.register, before.load, t.active);
      if !LanesReach(t.claim, t.lanes, a) {
        ClaimsSpare(t.claim, t.world, t.lanes, t.snapshot, st, a);
      }
    }
  }

  lemma FixesFine(t: TickInput, v: Found, a: string)
    requires Sized(t) && C.Ends(t.claim, t.world) && t.fix.slots == t.retry.slots
    ensures var load, before, after := RedriveEnd(t, v).load, ClaimEnd(t, v).objects, FixEnd(t, v);
      && (AllShaped(t.fixes) ==> Recorded(before, after.objects, load, after.load, UnrecordedFixes(t.fix, t.fixes, t.fixAnswers, a), a))
      && (t.retry.slots != map[] && a != "" ==> Bounded(load, after.load, t.retry.slots, a))
      && (!FixesReach(t.fix, t.fixes, a) ==> Held(after.load, a) == Held(load, a))
  {
    var st := F.FixState(ClaimEnd(t, v).objects, RedriveEnd(t, v).load, [], []);
    NothingRecorded(st.objects, st.load);
    if AllShaped(t.fixes) {
      FixesOccupy(t.fix, t.fixes, t.fixAnswers, st, a);
    }
    if t.retry.slots != map[] && a != "" {
      FixPassBounded(t.fix, t.fixes, t.fixAnswers, st, a);
    }
    if !FixesReach(t.fix, t.fixes, a) {
      FixPassSpares(t.fix, t.fixes, t.fixAnswers, st, a);
    }
  }

  lemma DrainFine(t: TickInput, v: Found, a: string)
    requires Sized(t) && C.Ends(t.claim, t.world) && t.fix.slots == t.retry.slots
    ensures var before, after := FixEnd(t, v), DrainEnd(t, v);
      && Recorded(before.objects, after.objects, before.load, after.load, UnrecordedDrains(t.fix, t.queue, a), a)
      && (t.retry.slots != map[] ==> Bounded(before.load, after.load, t.retry.slots, a))
      && (!FixesReach(t.fix, t.fixes, a) ==> Held(after.load, a) == Held(before.load, a))
  {
    var before := FixEnd(t, v);
    var st, existing := F.DrainState(before.objects, before.load, []), FixNamesIn(before.objects);
    NothingRecorded(st.objects, st.load);
    DrainsOccupy(t.fix, t.render, t.queue, existing, st, a);
    if t.retry.slots != map[] {
      DrainBounded(t.fix, t.render, t.queue, existing, st, a);
    }
    if !FixesReach(t.fix, t.fixes, a) {
      DrainSpares(t.fix, t.render, t.queue, existing, st, a);
    }
  }

  lemma NothingRecorded(objects: Objects, load: Load)
    ensures forall m: nat, a :: Recorded(objects, objects, load, load, m, a)
  {
    forall m: nat, a ensures Recorded(objects, objects, load, load, m, a) {
      NothingNew(objects, a);
    }
  }

  /** Workloads for a that were stored while their create raised. */
  function Missed(t: TickInput, v: Found, a: string): nat
    requires Sized(t) && C.Ends(t.claim, t.world)
  {
    RetriesRaised(t.retry, t.failed, t.retryAnswers, a) + UnrecordedRedrives(t.infra, t.parked, t.infraAnswers, a)
      + Bit(UnrecordedClaim(t.world, ClaimEnd(t, v))) + UnrecordedFixes(t.fix, t.fixes, t.fixAnswers, a)
      + UnrecordedDrains(t.fix, t.queue, a)
  }

  /** What the creating passes keep to for one coder, wherever the tick ends. */
  ghost predicate Fine(t: TickInput, v: Found, a: string)
    requires Sized(t) && C.Ends(t.claim, t.world)
  {
    var c := ChargesOf(t, v);
    && (t.retry.slots != map[] && a != "" ==> SharedBounded(c, t.retry.slots, a))
    && (C.CheckSeesCoder(t.claim, t.lanes) ==> Bounded(c.redriven, c.claimed, t.retry.slots, a))
    && (AllShaped(t.fixes) ==> |NewOn(v.objects, DrainEnd(t, v).objects, a)| <= Charged(c, a) + Missed(t, v, a))
    && (!LanesReach(t.claim, t.lanes, a) ==> ClaimCharges(c, a) == 0)
    && (!FixesReach(t.fix, t.fixes, a) ==> FixCharges(c, a) == 0)
  }

  /** Every Workload newly active on a was charged to it, but for the missed ones. */
  lemma NewAfterTick(t: TickInput, v: Found, a: string)
    requires WellFormed(t, v.objects) && AllShaped(t.fixes)
    ensures |NewOn(v.objects, DrainEnd(t, v).objects, a)| <= Charged(ChargesOf(t, v), a) + Missed(t, v, a)
  {
    var retried, redriven, claimed, fixed := RetryEnd(t, v).objects, RedriveEnd(t, v).objects, ClaimEnd(t, v).objects, FixEnd(t, v).objects;
    RetriesFine(t, v, a);
    RedrivesFine(t, v, a);
    ClaimsFine(t, v, a);
    FixesFine(t, v, a);
    DrainFine(t, v, a);
    NewAddsUp(v.objects, retried, redriven, a);
    NewAddsUp(v.objects, redriven, claimed, a);
    NewAddsUp(v.objects, claimed, fixed, a);
    NewAddsUp(v.objects, fixed, DrainEnd(t, v).objects, a);
  }

  lemma SharedIsBounded(t: TickInput, v: Found, a: string)
    requires WellFormed(t, v.objects) && t.retry.slots != map[] && a != ""
    ensures SharedBounded(ChargesOf(t, v), t.retry.slots, a)
  {
    RetriesFine(t, v, a);
    RedrivesFine(t, v, a);
    FixesFine(t, v, a);
    DrainFine(t, v, a);
  }

  lemma PassesAreFine(t: TickInput, v: Found, a: string)
    requires WellFormed(t, v.objects)
    ensures Fine(t, v, a)
  {
    if t.retry.slots != map[] && a != "" {
      SharedIsBounded(t, v, a);
    }
    ClaimsFine(t, v, a);
    FixesFine(t, v, a);
    DrainFine(t, v, a);
    if AllShaped(t.fixes) {
      NewAfterTick(t, v, a);
    }
  }

  lemma ClaimsKeepAll(t: TickInput, v: Found)
    requires WellFormed(t, v.objects)
    ensures KeepsAll(RetryEnd(t, v).objects, ClaimEnd(t, v).objects)
  {
    var retried, redriven := RetryEnd(t, v), RedriveEnd(t, v);
    InfraKeepsAll(t.infra, t.probe, t.parked, t.infraAnswers, I.InfraState(retried.objects, retried.load, v.labels, []));
    if !ClaimStops(t) {
      C.PassFacts(t.claim, t.world, t.lanes, t.snapshot, redriven.objects, v.register, redriven.load, t.active);
    }
  }

  /** After the retries no pass touches the Workload of a listed issue. */
  lemma RestKeepsListed(t: TickInput, v: Found)
    requires WellFormed(t, v.objects)
    ensures KeepsListed(t.failed, RetryEnd(t, v).objects, DrainEnd(t, v).objects)
  {
    var redriven, claimed, fixed := RedriveEnd(t, v), ClaimEnd(t, v), FixEnd(t, v);
    ClaimsKeepAll(t, v);
    FixesKeepListed(t, F.FixState(claimed.objects, redriven.load, [], []));
    DrainKeepsAll(t.fix, t.render, t.queue, FixNamesIn(fixed.objects), F.DrainState(fixed.objects, fixed.load, []));
  }

  lemma {:induction false} InfraKeepsAll(
    cfg: I.InfraConfig, probe: I.Probe, issues: seq<Infra.Issue>, answers: seq<I.InfraAnswers>, st: I.InfraState)
    requires |answers| == |issues|
    ensures KeepsAll(st.objects, I.ParkedPass(cfg, probe, issues, answers, st).objects)
  {
    if issues != [] {
      InfraKeepsAll(cfg, probe, issues[..|issues| - 1], answers[..|issues| - 1], st);
    }
  }

  lemma FixesKeepListed(t: TickInput, st: F.FixState)
    requires Sized(t) && forall w :: w in t.fixes ==> !RL.Names(t.failed, w.name)
    ensures KeepsListed(t.failed, st.objects, F.FixPass(t.fix, t.fixes, t.fixAnswers, st).objects)
  {
    forall w | w in t.failed ensures FL.Untouched(st.objects, F.FixPass(t.fix, t.fixes, t.fixAnswers, st).objects, w.name) {
      var k :| 0 <= k < |t.failed| && t.failed[k] == w;
      forall i | 0 <= i < |t.fixes| ensures t.fixes[i].name != w.name {
        assert t.fixes[i] in t.fixes;
        assert t.fixes[i].name == w.name ==> RL.Names(t.failed, t.fixes[i].name);
      }
      FL.FixPassFrame(t.fix, t.fixes, t.fixAnswers, st, w.name);
    }
  }

  lemma {:induction false} DrainKeepsAll(
    cfg: F.FixConfig, render: B.Render, queue: seq<F.Queued>, existing: set<string>, st: F.DrainState)
    ensures KeepsAll(st.objects, F.Drain(cfg, render, queue, existing, st).objects)
  {
    if queue != [] {
      DrainKeepsAll(cfg, render, queue[..|queue| - 1], existing, st);
    }
  }

  // ----- The passes as the bridge runs them

  method FixStage(t: TickInput, cluster: Cluster, pool: CoderLoad) returns (fixed: Load, drained: Load)
    requires Sized(t)
    modifies cluster, pool
    ensures var st := F.FixState(old(cluster.objects), old(pool.load), [], []);
      var middle := F.FixPass(t.fix, t.fixes, t.fixAnswers, st);
      var before := F.DrainState(middle.objects, middle.load, []);
      var after := if FixNames in t.broken then before else F.Drain(t.fix, t.render, t.queue, FixNamesIn(middle.objects), before);
      fixed == middle.load && drained == after.load && cluster.objects == after.objects
  {
    var _, _ := FP.ReconcilePrFixes(t.fix, t.fixes, t.fixAnswers, cluster, pool);
    fixed, drained := pool.load, pool.load;
    if FixNames in t.broken {
      return;
    }
    var existing := set n | n in cluster.objects && cluster.objects[n].createdBy == PrFixBridge;
    var results;
    results, drained := FP.DrainPrFixes(t.fix, t.render, t.queue, existing, pool.load, cluster);
  }

  /** Claims on a copy of the load, then fixes on the load itself. */
  method ClaimThenFix(t: TickInput, ghost v: Found, cluster: Cluster, dispatch: C.Dispatch, pool: CoderLoad)
    returns (claimed: Load, fixed: Load, drained: Load, stop: bool)
    requires Sized(t) && C.Ends(t.claim, t.world) && !RetryStops(t)
    requires dispatch.granting == t.world.granting && dispatch.register == v.register
    requires cluster.objects == RedriveEnd(t, v).objects && pool.load == RedriveEnd(t, v).load
    modifies cluster, dispatch, pool
    ensures claimed == ClaimEnd(t, v).load && fixed == FixEnd(t, v).load && drained == DrainEnd(t, v).load
    ensures cluster.objects == DrainEnd(t, v).objects && dispatch.register == ClaimEnd(t, v).register
    ensures stop <==> CreatingStops(t, v)
  {
    claimed, fixed, drained, stop := pool.load, pool.load, pool.load, true;
    if t.claim.maxInProgress != 0 && ActiveListing in t.broken {
      return;
    }
    var results, inProgress, creates;
    results, inProgress, claimed, creates, stop :=
      C.RunOnce(t.claim, t.world, t.lanes, t.snapshot, dispatch, cluster, pool.load, t.active);
    if stop || !t.fixEnabled {
      return;
    }
    stop := FixListing in t.broken || FixNames in t.broken;
    if FixListing !in t.broken {
      fixed, drained := FixStage(t, cluster, pool);
    }
  }

  /** Retries, redrives, claims, fixes and drain, in the tick's order; stop is an exception that ends the tick. */
  method CreatingPasses(t: TickInput, start: Load, cluster: Cluster, dispatch: C.Dispatch, store: I.LabelStore)
    returns (c: Charges, results: seq<R.Outcome>, stop: bool)
    requires WellFormed(t, cluster.objects) && dispatch.granting == t.world.granting
    modifies cluster, dispatch, store
    ensures var v := Found(old(cluster.objects), start, old(store.labels), old(dispatch.register));
      && c == ChargesOf(t, v) && results == RetryEnd(t, v).results && cluster.objects == DrainEnd(t, v).objects
      && store.labels == RedriveEnd(t, v).labels && dispatch.register == ClaimEnd(t, v).register
      && (stop <==> CreatingStops(t, v))
  {
    ghost var v := Found(cluster.objects, start, store.labels, dispatch.register);
    var pool := new CoderLoad(start);
    c, results, stop := Charges(start, start, start, start, start, start), [], true;
    if FailedListing in t.broken {
      return;
    }
    results, stop := R.ReconcileFailures(t.retry, t.failed, t.retryAnswers, cluster, pool);
    RL.PassAbortsExactly(t.retry, t.failed, t.retryAnswers, R.PassState(v.objects, start, [], false));
    var retried := pool.load;
    if stop {
      c := Charges(start, retried, retried, retried, retried, retried);
      return;
    }
    var _, _ := I.ReconcileInfraParked(t.infra, t.probe, t.parked, t.infraAnswers, cluster, pool, store);
    var redriven := pool.load;
    var claimed, fixed, drained;
    claimed, fixed, drained, stop := ClaimThenFix(t, v, cluster, dispatch, pool);
    c := Charges(start, retried, redriven, claimed, fixed, drained);
  }

  // ----- The whole tick

  predicate ReviewEnds(t: TickInput) {
    exists i :: 0 <= i < |t.turns| && V.EndsPass(t.turns[i])
  }

  /** The load listing is made only with slots configured. */
  predicate LoadFails(t: TickInput) {
    t.retry.slots != map[] && LoadListing in t.broken
  }

  /** Where an exception ends the tick before its sweep. */
  predicate EndsBeforeSweep(t: TickInput, v: Found)
    requires Sized(t) && C.Ends(t.claim, t.world)
  {
    LoadFails(t) || CreatingStops(t, v) || ReviewListing in t.broken || ReviewEnds(t)
    || NameListing in t.broken || ClaimedListing in t.broken
  }

  /** What a tick leaves behind besides the world it worked on. */
  datatype TickEnd = TickEnd(charges: Charges, results: seq<R.Outcome>, swept: bool)

  /** The load the tick starts from. */
  ghost predicate StartsFrom(t: TickInput, start: Load) {
    if t.retry.slots == map[] || LoadListing in t.broken then start == map[]
    else forall a :: Held(start, a) == SlotsHeld(t.workloads, t.tasks, a)
  }

  /** Where a listed Workload's issue stands when the tick reached its sweep. */
  ghost predicate Saved(t: TickInput, v: Found, k: nat, after: Objects, ready: set<Ref>)
    requires Sized(t) && k < |t.failed|
  {
    var w, a, middle := t.failed[k], t.retryAnswers[k], RetryEnd(t, v);
    || (w.name in after && (w.name in middle.objects ==> RL.StillThere(t.retry, w, a, after[w.name])))
    || (exists tag :: R.Outcome(w.name, tag) in middle.results && RL.HandedOff(tag, a))
    || IssueOf(w) in ready
  }

  /** Every Failed Workload whose issue the sweep is shown, and can write to, is saved. */
  ghost predicate AllSaved(t: TickInput, v: Found, after: Objects, ready: set<Ref>)
    requires Sized(t)
  {
    forall k :: 0 <= k < |t.failed| && Swept(t.claims, t.sweepWrites, IssueOf(t.failed[k])) ==> Saved(t, v, k, after, ready)
  }

  lemma SweepSaves(t: TickInput, v: Found, k: nat, after: Objects, names: set<string>, ready: set<Ref>)
    requires WellFormed(t, v.objects) && k < |t.failed| && Swept(t.claims, t.sweepWrites, IssueOf(t.failed[k]))
    requires KeepsListed(t.failed, RetryEnd(t, v).objects, after) && names <= after.Keys
    requires Refs(Reset, t.claims, t.sweepWrites, names, |t.claims|) <= ready
    ensures Saved(t, v, k, after, ready)
  {
    var w := t.failed[k];
    assert w in t.failed;
    if FailedListing !in t.broken {
      RL.PassConserves(t.retry, t.failed, t.retryAnswers, R.PassState(v.objects, v.start, [], false), k);
    }
    if w.name !in after {
      var i :| 0 <= i < |t.claims| && SweptAt(t.claims, t.sweepWrites, i, IssueOf(w));
      LostIsStranded(w, t.claims[i], names);
      RefsContain(Reset, t.claims, t.sweepWrites, names, |t.claims|, i);
    }
  }

  lemma SweepSavesAll(t: TickInput, v: Found, names: set<string>, ready: set<Ref>)
    requires WellFormed(t, v.objects) && !CreatingStops(t, v) && names <= DrainEnd(t, v).objects.Keys
    requires Refs(Reset, t.claims, t.sweepWrites, names, |t.claims|) <= ready
    ensures AllSaved(t, v, DrainEnd(t, v).objects, ready)
  {
    RestKeepsListed(t, v);
    forall k | 0 <= k < |t.failed| && Swept(t.claims, t.sweepWrites, IssueOf(t.failed[k]))
      ensures Saved(t, v, k, DrainEnd(t, v).objects, ready)
    {
      SweepSaves(t, v, k, DrainEnd(t, v).objects, names, ready);
    }
  }

  /** The names the sweep takes for claimed. */
  function IssueNames(objects: Objects): set<string> {
    set n | n in objects && objects[n].createdBy == IssueBridge
  }

  /** The issues' side of the world: the cards the review moves, those at ready, and those marked needs-human. */
  datatype Issues = Issues(cards: V.Cards, ready: set<Ref>, marked: set<Ref>)

  predicate ReviewStarts(t: TickInput, v: Found)
    requires Sized(t) && C.Ends(t.claim, t.world)
  {
    !LoadFails(t) && !CreatingStops(t, v) && ReviewListing !in t.broken
  }

  /** What the review leaves of them, and the sweep if the tick gets there. */
  function IssuesEnd(t: TickInput, v: Found, before: Issues): Issues
    requires Sized(t) && C.Ends(t.claim, t.world)
  {
    var names := IssueNames(DrainEnd(t, v).objects);
    var cards := if ReviewStarts(t, v) then V.TakeAll(V.State(before.cards, [], false), t.turns).cards else before.cards;
    if EndsBeforeSweep(t, v) then before.(cards := cards)
    else
      Issues(cards, before.ready + Refs(Reset, t.claims, t.sweepWrites, names, |t.claims|),
        before.marked - Refs(TakeMark, t.claims, t.sweepWrites, names, |t.claims|))
  }

  method ReviewAndSweep(t: TickInput, ghost v: Found, names: set<string>, desk: V.Desk, register: Register) returns (swept: bool)
    requires Sized(t) && C.Ends(t.claim, t.world) && ReviewStarts(t, v) && names == IssueNames(DrainEnd(t, v).objects)
    modifies desk, register
    ensures swept <==> !EndsBeforeSweep(t, v)
    ensures Issues(desk.cards, register.ready, register.marked)
      == IssuesEnd(t, v, Issues(old(desk.cards), old(register.ready), old(register.marked)))
    ensures register.held == old(register.held)
  {
    var _, ended := desk.TransitionToInReview(t.turns);
    swept := !(ended || NameListing in t.broken || ClaimedListing in t.broken);
    if swept {
      var _ := ReconcileStranded(register, t.claims, t.sweepWrites, names);
    }
  }

  /** An issue Workload stands under the issue's name. */
  predicate HasWorkload(objects: Objects, r: Ref) {
    var n := WorkloadName(r.repo, r.number);
    n in objects && objects[n].createdBy == IssueBridge
  }

  /** Dispatch lists the issue among the claims, without an open pull request. */
  predicate ClaimedAt(t: TickInput, i: nat, r: Ref)
    requires i < |t.claims|
  {
    t.claims[i].number == Some(r.number) && t.claims[i].repo == r.repo && !t.claims[i].openPr
  }

  ghost predicate GoesReady(t: TickInput, objects: Objects, r: Ref)
    requires Sized(t)
  {
    !HasWorkload(objects, r) && exists i :: 0 <= i < |t.claims| && ClaimedAt(t, i, r) && t.sweepWrites[i].status.landed
  }

  ghost predicate LosesMark(t: TickInput, objects: Objects, r: Ref)
    requires Sized(t)
  {
    && !HasWorkload(objects, r)
    && exists i :: 0 <= i < |t.claims| && ClaimedAt(t, i, r) && t.sweepWrites[i].status.reply != Raises && t.sweepWrites[i].unmark.landed
  }

  /** The issues whose claim has nothing behind it are made ready and unmarked as far as the writes work, and no others. */
  ghost predicate SweptExactly(
    t: TickInput, objects: Objects, ready: set<Ref>, ready': set<Ref>, marked: set<Ref>, marked': set<Ref>)
    requires Sized(t)
  {
    && (forall r :: r in ready' <==> r in ready || GoesReady(t, objects, r))
    && (forall r :: r in marked' <==> r in marked && !LosesMark(t, objects, r))
  }

  lemma ResetsAre(t: TickInput, objects: Objects, r: Ref)
    requires Sized(t)
    ensures r in Refs(Reset, t.claims, t.sweepWrites, IssueNames(objects), |t.claims|) <==> GoesReady(t, objects, r)
  {
    var names := IssueNames(objects);
    if r in Refs(Reset, t.claims, t.sweepWrites, names, |t.claims|) {
      RefsAreStranded(Reset, t.claims, t.sweepWrites, names, |t.claims|, r);
      var i :| 0 <= i < |t.claims| && Happens(Reset, t.claims[i], t.sweepWrites[i], names) && Stranded.RefOf(t.claims[i]) == r;
      assert ClaimedAt(t, i, r);
    }
    if GoesReady(t, objects, r) {
      var i :| 0 <= i < |t.claims| && ClaimedAt(t, i, r) && t.sweepWrites[i].status.landed;
      RefsContain(Reset, t.claims, t.sweepWrites, names, |t.claims|, i);
    }
  }

  lemma UnmarksAre(t: TickInput, objects: Objects, r: Ref)
    requires Sized(t)
    ensures r in Refs(TakeMark, t.claims, t.sweepWrites, IssueNames(objects), |t.claims|) <==> LosesMark(t, objects, r)
  {
    var names := IssueNames(objects);
    if r in Refs(TakeMark, t.claims, t.sweepWrites, names, |t.claims|) {
      RefsAreStranded(TakeMark, t.claims, t.sweepWrites, names, |t.claims|, r);
      var i :| 0 <= i < |t.claims| && Happens(TakeMark, t.claims[i], t.sweepWrites[i], names) && Stranded.RefOf(t.claims[i]) == r;
      assert ClaimedAt(t, i, r);
    }
    if LosesMark(t, objects, r) {
      var i :| 0 <= i < |t.claims| && ClaimedAt(t, i, r)
        && t.sweepWrites[i].status.reply != Raises && t.sweepWrites[i].unmark.landed;
      RefsContain(TakeMark, t.claims, t.sweepWrites, names, |t.claims|, i);
    }
  }

  lemma SweepIsExact(t: TickInput, v: Found, before: Issues)
    requires Sized(t) && C.Ends(t.claim, t.world) && !EndsBeforeSweep(t, v)
    ensures var after := IssuesEnd(t, v, before);
      SweptExactly(t, DrainEnd(t, v).objects, before.ready, after.ready, before.marked, after.marked)
  {
    forall r
      ensures r in Refs(Reset, t.claims, t.sweepWrites, IssueNames(DrainEnd(t, v).objects), |t.claims|)
        <==> GoesReady(t, DrainEnd(t, v).objects, r)
      ensures r in Refs(TakeMark, t.claims, t.sweepWrites, IssueNames(DrainEnd(t, v).objects), |t.claims|)
        <==> LosesMark(t, DrainEnd(t, v).objects, r)
    {
      ResetsAre(t, DrainEnd(t, v).objects, r);
      UnmarksAre(t, DrainEnd(t, v).objects, r);
    }
  }

  /** The cluster, labels and claims a tick leaves, and what it reports. */
  datatype Left = Left(objects: Objects, labels: I.LabelTable, register: C.Register, charges: Charges, results: seq<R.Outcome>)

  function LeftBy(t: TickInput, v: Found): Left
    requires Sized(t) && C.Ends(t.claim, t.world)
  {
    if LoadFails(t) then Left(v.objects, v.labels, v.register, Charges(map[], map[], map[], map[], map[], map[]), [])
    else Left(DrainEnd(t, v).objects, RedriveEnd(t, v).labels, ClaimEnd(t, v).register, ChargesOf(t, v), RetryEnd(t, v).results)
  }

  method CountLoad(t: TickInput) returns (start: Load)
    requires !LoadFails(t)
    ensures StartsFrom(t, start)
  {
    start := map[];
    if t.retry.slots != map[] {
      start := LoadByCoderAgent(t.workloads, t.tasks);
    }
  }

  /**
   * `run_tick` from the load count to the sweep. On a tick no exception ends before its sweep, every Failed
   * Workload it retried is saved: it is still there, its issue was handed over, or the issue is ready again. The sweep makes
   * ready exactly what is claimed with neither a Workload nor an open pull request.
   */
  method RunTick(
    t: TickInput, cluster: Cluster, dispatch: C.Dispatch, store: I.LabelStore, desk: V.Desk, register: Register)
    returns (end: TickEnd)
    requires WellFormed(t, cluster.objects) && dispatch.granting == t.world.granting
    modifies cluster, dispatch, store, desk, register
    ensures StartsFrom(t, end.charges.start)
    ensures var v := Found(old(cluster.objects), end.charges.start, old(store.labels), old(dispatch.register));
      && Left(cluster.objects, store.labels, dispatch.register, end.charges, end.results) == LeftBy(t, v)
      && Issues(desk.cards, register.ready, register.marked)
        == IssuesEnd(t, v, Issues(old(desk.cards), old(register.ready), old(register.marked)))
      && register.held == old(register.held)
      && (end.swept <==> !EndsBeforeSweep(t, v))
      && (end.swept ==> AllSaved(t, v, cluster.objects, register.ready))
    ensures end.swept ==> SweptExactly(t, cluster.objects, old(register.ready), register.ready, old(register.marked), register.marked)
    ensures !end.swept ==> register.ready == old(register.ready) && register.marked == old(register.marked)
  {
    if t.retry.slots != map[] && LoadListing in t.broken {
      return TickEnd(Charges(map[], map[], map[], map[], map[], map[]), [], false);
    }
    var start := CountLoad(t);
    ghost var v := Found(cluster.objects, start, store.labels, dispatch.register);
    ghost var before := Issues(desk.cards, register.ready, register.marked);
    var c, results, stop := CreatingPasses(t, start, cluster, dispatch, store);
    end := TickEnd(c, results, false);
    if stop || ReviewListing in t.broken {
      return;
    }
    var names := set n | n in cluster.objects && cluster.objects[n].createdBy == IssueBridge;
    var swept := ReviewAndSweep(t, v, names, desk, register);
    end := TickEnd(c, results, swept);
    if swept {
      SweepSavesAll(t, v, names, register.ready);
      SweepIsExact(t, v, before);
    }
  }

  // ----- What that means for a coder's slots

  /** The Workloads holding a slot of a when the tick is over, by the task list it started from. */
  function OccupiedAfter(t: TickInput, v: Found, a: string): set<string>
    requires Sized(t) && C.Ends(t.claim, t.world)
  {
    Occupied(v.objects, DrainEnd(t, v).objects, Holders(t.workloads, t.tasks, a), a)
  }

  /** A tick with slots configured that counted its load, over listings as the bridge makes them. */
  ghost predicate Counted(t: TickInput, v: Found) {
    && WellFormed(t, v.objects) && t.retry.slots != map[] && LoadListing !in t.broken && StartsFrom(t, v.start)
    && AllShaped(t.fixes) && RL.DistinctListing(t.workloads)
  }

  /** The slots really held after a tick are at most those held before, plus what was charged, plus the missed creates. */
  lemma HeldAfter(t: TickInput, v: Found, a: string)
    requires Counted(t, v)
    ensures |OccupiedAfter(t, v, a)| <= Held(v.start, a) + Charged(ChargesOf(t, v), a) + Missed(t, v, a)
    ensures Held(v.start, a) == SlotsHeld(t.workloads, t.tasks, a)
  {
    HoldersAreCounted(t.workloads, t.tasks, a);
    OccupiedAddsUp(v.objects, DrainEnd(t, v).objects, Holders(t.workloads, t.tasks, a), a);
    PassesAreFine(t, v, a);
  }

  /** So they are over the limit by no more than claims and fixes both charged, and the missed creates. */
  lemma TickOccupies(t: TickInput, v: Found, a: string)
    requires Counted(t, v) && C.CheckSeesCoder(t.claim, t.lanes) && a != ""
    ensures |OccupiedAfter(t, v, a)| <= Max(SlotsHeld(t.workloads, t.tasks, a), SlotsFor(a, t.retry.slots))
      + Min(ClaimCharges(ChargesOf(t, v), a), FixCharges(ChargesOf(t, v), a)) + Missed(t, v, a)
  {
    HeldAfter(t, v, a);
    PassesAreFine(t, v, a);
    TickAddsUp(ChargesOf(t, v), t.retry.slots, a);
  }

  /** What the fixes of a tick would charge to a if it had the slots, as far as the tick gets. */
  function FixDemand(t: TickInput, v: Found, a: string): nat
    requires Sized(t) && C.Ends(t.claim, t.world)
  {
    if FixStops(t, v) || !t.fixEnabled then 0
    else
      var drained := if FixNames in t.broken then 0 else DrainBids(t.fix, t.queue, FixNamesIn(FixEnd(t, v).objects), a);
      FixBids(t.fix, t.fixes, t.fixAnswers, a) + drained
  }

  lemma {:induction false} FixesChargeDemand(t: TickInput, v: Found, a: string)
    requires Sized(t) && C.Ends(t.claim, t.world) && t.fix.slots == t.retry.slots != map[] && a != ""
    ensures Fills(RedriveEnd(t, v).load, DrainEnd(t, v).load, t.retry.slots, FixDemand(t, v, a), a)
  {
    if !FixStops(t, v) && t.fixEnabled {
      var st := F.FixState(ClaimEnd(t, v).objects, RedriveEnd(t, v).load, [], []);
      var before := FixEnd(t, v);
      if FixNames in t.broken {
        FixesTake(t.fix, t.fixes, t.fixAnswers, st, a);
      } else {
        FixesThenDrain(t.fix, t.render, t.fixes, t.fixAnswers, t.queue, FixNamesIn(before.objects), st,
          F.DrainState(before.objects, before.load, []), a);
      }
    }
  }

  /**
   * A tick charges a coder beyond its slots, and beyond what it began with, exactly when the claims charged more than the
   * fixes leave of the slots that were spare; what the fixes will take is their demand, known before the first is made.
   */
  lemma TickOverfillsExactly(t: TickInput, v: Found, a: string)
    requires WellFormed(t, v.objects) && t.retry.slots != map[] && a != ""
    ensures var c := ChargesOf(t, v); var spare := Spare(c, t.retry.slots, a);
      && FixCharges(c, a) == Min(spare, FixDemand(t, v, a))
      && (Overfills(c, t.retry.slots, a) <==> ClaimCharges(c, a) > spare - Min(spare, FixDemand(t, v, a)))
  {
    PassesAreFine(t, v, a);
    FixesChargeDemand(t, v, a);
    OverfillsExactly(ChargesOf(t, v), t.retry.slots, a);
  }

  /** When it does not, and no create of it is missed, a coder holds no more slots than it has, or than it held before. */
  lemma TickStaysWithinSlots(t: TickInput, v: Found, a: string)
    requires Counted(t, v) && a != "" && Missed(t, v, a) == 0
    requires var c := ChargesOf(t, v); var spare := Spare(c, t.retry.slots, a);
      ClaimCharges(c, a) <= spare - Min(spare, FixDemand(t, v, a))
    ensures |OccupiedAfter(t, v, a)| <= Max(SlotsHeld(t.workloads, t.tasks, a), SlotsFor(a, t.retry.slots))
  {
    HeldAfter(t, v, a);
    TickOverfillsExactly(t, v, a);
  }

  /** Never for a coder that lanes or fixes cannot reach, or that has nothing spare when the claims begin. */
  lemma OneSidedTickFits(t: TickInput, v: Found, a: string)
    requires WellFormed(t, v.objects) && C.CheckSeesCoder(t.claim, t.lanes) && a != ""
    requires !LanesReach(t.claim, t.lanes, a) || !FixesReach(t.fix, t.fixes, a) || Spare(ChargesOf(t, v), t.retry.slots, a) == 0
    ensures !Overfills(ChargesOf(t, v), t.retry.slots, a)
  {
    PassesAreFine(t, v, a);
    OverfillsExactly(ChargesOf(t, v), t.retry.slots, a);
  }
}
