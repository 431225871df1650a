/** Whole runs of ticks over the cluster's fix Workloads. */
module PrFixRuns {
  import opened Outcomes
  import opened Workloads
  import opened Mergeability
  import opened PrFix
  import opened PrFixLaws
  import Build

  /** What happens from the end of one drain to the end of the next: Foreman reports, reconcile, drain. */
  datatype FixTick = FixTick(
    removed: set<string>,
    phases: map<string, Phase>,
    cfg: FixConfig,
    order: seq<string>,
    answers: seq<FixAnswers>,
    load: Load,
    render: Build.Render,
    queue: seq<Queued>,
    drainLoad: Load)

  function Reported(objects: Objects, phases: map<string, Phase>): Objects {
    map n | n in objects :: if n in phases then objects[n].(phase := phases[n]) else objects[n]
  }

  /** The fix Workloads when reconcile lists them. */
  function Listed(objects: Objects, tick: FixTick): Objects {
    Reported(objects - tick.removed, tick.phases)
  }

  function Listing(objects: Objects, order: seq<string>): seq<Workload>
    requires forall i :: 0 <= i < |order| ==> order[i] in objects
  {
    seq(|order|, i requires 0 <= i < |order| => objects[order[i]])
  }

  ghost predicate LegalTick(objects: Objects, tick: FixTick, maxAttempts: int, progressMax: int) {
    && tick.cfg.maxAttempts == maxAttempts && tick.cfg.progressMax == progressMax
    && |tick.answers| == |tick.order|
    && (forall i, j :: 0 <= i < j < |tick.order| ==> tick.order[i] != tick.order[j])
    && (forall i :: 0 <= i < |tick.order| ==> tick.order[i] in Listed(objects, tick))
  }

  function Reconciled(objects: Objects, tick: FixTick): Objects
    requires |tick.answers| == |tick.order|
    requires forall i :: 0 <= i < |tick.order| ==> tick.order[i] in Listed(objects, tick)
  {
    var shown := Listed(objects, tick);
    FixPass(tick.cfg, Listing(shown, tick.order), tick.answers, FixState(shown, tick.load, [], [])).objects
  }

  /** The drain skips the names listed after reconcile. */
  function Drained(objects: Objects, tick: FixTick): Objects {
    Drain(tick.cfg, tick.render, tick.queue, objects.Keys, DrainState(objects, tick.drainLoad, [])).objects
  }

  predicate RecreatedIn(before: Objects, after: Objects, n: string) {
    n in before && n in after && before[n] != after[n]
  }

  predicate DrainedIn(before: Objects, after: Objects, n: string) {
    n !in before && n in after
  }

  ghost predicate TickLeads(objects: Objects, tick: FixTick, middle: Objects, after: Objects, maxAttempts: int, progressMax: int) {
    LegalTick(objects, tick, maxAttempts, progressMax) && middle == Reconciled(objects, tick) && after == Drained(middle, tick)
  }

  ghost predicate Links(
    states: seq<Objects>, middles: seq<Objects>, ticks: seq<FixTick>, maxAttempts: int, progressMax: int, k: nat)
    requires 0 < k <= |ticks| == |middles| < |states|
  {
    TickLeads(states[k - 1], ticks[k - 1], middles[k - 1], states[k], maxAttempts, progressMax)
  }

  /** states[k] is the cluster after k ticks, middles[k] the one between reconcile and drain of tick k. */
  ghost predicate IsRun(
    states: seq<Objects>, middles: seq<Objects>, ticks: seq<FixTick>, maxAttempts: int, progressMax: int)
  {
    && |states| == |ticks| + 1 && |middles| == |ticks|
    && WellNamed(states[0])
    && forall k :: 0 < k <= |ticks| ==> Links(states, middles, ticks, maxAttempts, progressMax, k)
  }

  /** How often reconcile recreated n in the first k ticks. */
  function Recreations(states: seq<Objects>, middles: seq<Objects>, ticks: seq<FixTick>, n: string, k: nat): nat
    requires k <= |ticks| == |middles| < |states|
  {
    if k == 0 then 0
    else
      var bit := if RecreatedIn(Listed(states[k - 1], ticks[k - 1]), middles[k - 1], n) then 1 else 0;
      Recreations(states, middles, ticks, n, k - 1) + bit
  }

  /** How often the drain created n in the first k ticks. */
  function Drains(states: seq<Objects>, middles: seq<Objects>, n: string, k: nat): nat
    requires k <= |middles| < |states|
  {
    if k == 0 then 0
    else Drains(states, middles, n, k - 1) + (if DrainedIn(middles[k - 1], states[k], n) then 1 else 0)
  }

  function PotentialAt(maxAttempts: int, progressMax: int, objects: Objects, n: string): nat {
    if n in objects then Potential(maxAttempts, progressMax, objects[n]) else 0
  }

  lemma ListedEntry(objects: Objects, tick: FixTick, maxAttempts: int, progressMax: int, n: string)
    requires WellNamed(objects)
    ensures var shown := Listed(objects, tick);
      && (n in shown ==> shown[n].name == n)
      && PotentialAt(maxAttempts, progressMax, shown, n) <= PotentialAt(maxAttempts, progressMax, objects, n)
  {
    if n in Listed(objects, tick) && n in tick.phases {
      PhaseKeepsPotential(maxAttempts, progressMax, objects[n], tick.phases[n]);
    }
  }

  lemma PhaseKeepsPotential(maxAttempts: int, progressMax: int, w: Workload, phase: Phase)
    ensures Potential(maxAttempts, progressMax, w.(phase := phase)) == Potential(maxAttempts, progressMax, w)
  {
  }

  lemma ReconcileSpends(objects: Objects, tick: FixTick, maxAttempts: int, progressMax: int, n: string)
    requires WellNamed(objects) && LegalTick(objects, tick, maxAttempts, progressMax)
    ensures var shown, middle := Listed(objects, tick), Reconciled(objects, tick);
      && (n in middle ==> middle[n].name == n)
      && (if RecreatedIn(shown, middle, n) then 1 else 0) + PotentialAt(maxAttempts, progressMax, middle, n)
        <= PotentialAt(maxAttempts, progressMax, objects, n)
  {
    var shown := Listed(objects, tick);
    forall m | m in shown ensures shown[m].name == m {
      ListedEntry(objects, tick, maxAttempts, progressMax, m);
    }
    ListedEntry(objects, tick, maxAttempts, progressMax, n);
    FixPassShrinks(tick.cfg, Listing(shown, tick.order), tick.answers, FixState(shown, tick.load, [], []), n);
  }

  lemma DrainRefills(middle: Objects, tick: FixTick, maxAttempts: int, progressMax: int, n: string)
    requires n in middle ==> middle[n].name == n
    ensures var after := Drained(middle, tick);
      && (n in after ==> after[n].name == n)
      && PotentialAt(maxAttempts, progressMax, after, n) <= PotentialAt(maxAttempts, progressMax, middle, n)
        + (if DrainedIn(middle, after, n) then FreshPotential(maxAttempts, progressMax) else 0)
  {
    DrainFills(tick.cfg, tick.render, tick.queue, middle.Keys, DrainState(middle, tick.drainLoad, []), maxAttempts, progressMax, n);
  }

  lemma TickSpends(
    objects: Objects, tick: FixTick, middle: Objects, after: Objects, maxAttempts: int, progressMax: int, n: string)
    requires WellNamed(objects) && TickLeads(objects, tick, middle, after, maxAttempts, progressMax)
    ensures n in after ==> after[n].name == n
    ensures (if RecreatedIn(Listed(objects, tick), middle, n) then 1 else 0) + PotentialAt(maxAttempts, progressMax, after, n)
      <= PotentialAt(maxAttempts, progressMax, objects, n)
        + (if DrainedIn(middle, after, n) then FreshPotential(maxAttempts, progressMax) else 0)
  {
    ReconcileSpends(objects, tick, maxAttempts, progressMax, n);
    DrainRefills(middle, tick, maxAttempts, progressMax, n);
  }

  lemma TickKeepsNames(objects: Objects, tick: FixTick, middle: Objects, after: Objects, maxAttempts: int, progressMax: int)
    requires WellNamed(objects) && TickLeads(objects, tick, middle, after, maxAttempts, progressMax)
    ensures WellNamed(after)
  {
    forall n | n in after ensures after[n].name == n {
      TickSpends(objects, tick, middle, after, maxAttempts, progressMax, n);
    }
  }

  lemma RunLink(states: seq<Objects>, middles: seq<Objects>, ticks: seq<FixTick>, maxAttempts: int, progressMax: int, k: nat)
    requires IsRun(states, middles, ticks, maxAttempts, progressMax) && 0 < k <= |ticks|
    ensures TickLeads(states[k - 1], ticks[k - 1], middles[k - 1], states[k], maxAttempts, progressMax)
  {
    assert Links(states, middles, ticks, maxAttempts, progressMax, k);
  }

  lemma {:induction false} RunKeepsNames(
    states: seq<Objects>, middles: seq<Objects>, ticks: seq<FixTick>, maxAttempts: int, progressMax: int, k: nat)
    requires IsRun(states, middles, ticks, maxAttempts, progressMax) && k <= |ticks|
    ensures WellNamed(states[k])
  {
    if k > 0 {
      RunKeepsNames(states, middles, ticks, maxAttempts, progressMax, k - 1);
      RunLink(states, middles, ticks, maxAttempts, progressMax, k);
      TickKeepsNames(states[k - 1], ticks[k - 1], middles[k - 1], states[k], maxAttempts, progressMax);
    }
  }

  lemma TickCounts(
    states: seq<Objects>, middles: seq<Objects>, ticks: seq<FixTick>, maxAttempts: int, progressMax: int, n: string, k: nat)
    requires IsRun(states, middles, ticks, maxAttempts, progressMax) && 0 < k <= |ticks|
    ensures (if RecreatedIn(Listed(states[k - 1], ticks[k - 1]), middles[k - 1], n) then 1 else 0)
      + PotentialAt(maxAttempts, progressMax, states[k], n)
      <= PotentialAt(maxAttempts, progressMax, states[k - 1], n)
        + (if DrainedIn(middles[k - 1], states[k], n) then FreshPotential(maxAttempts, progressMax) else 0)
  {
    RunKeepsNames(states, middles, ticks, maxAttempts, progressMax, k - 1);
    RunLink(states, middles, ticks, maxAttempts, progressMax, k);
    TickSpends(states[k - 1], ticks[k - 1], middles[k - 1], states[k], maxAttempts, progressMax, n);
  }

  /** Over any run, reconcile recreates a name at most its potential plus P * (M - 1) + T * M - 1 for every time it was drained. */
  lemma {:induction false} RunStaysBelowPotential(
    states: seq<Objects>, middles: seq<Objects>, ticks: seq<FixTick>, maxAttempts: int, progressMax: int, n: string, k: nat)
    requires IsRun(states, middles, ticks, maxAttempts, progressMax) && k <= |ticks|
    ensures Recreations(states, middles, ticks, n, k) + PotentialAt(maxAttempts, progressMax, states[k], n)
      <= PotentialAt(maxAttempts, progressMax, states[0], n)
        + Drains(states, middles, n, k) * FreshPotential(maxAttempts, progressMax)
  {
    if k > 0 {
      RunStaysBelowPotential(states, middles, ticks, maxAttempts, progressMax, n, k - 1);
      TickCounts(states, middles, ticks, maxAttempts, progressMax, n, k);
      var bit := if DrainedIn(middles[k - 1], states[k], n) then 1 else 0;
      Distribute(Drains(states, middles, n, k - 1), bit, FreshPotential(maxAttempts, progressMax));
    }
  }

  lemma Distribute(x: nat, y: nat, z: nat)
    ensures (x + y) * z == x * z + y * z
  {
  }

  // ----- Progress over a run

  /** Every reconcile of the run is given the signatures of raw queue entries. */
  ghost predicate RawRun(ticks: seq<FixTick>) {
    forall k :: 0 <= k < |ticks| ==> RawTick(ticks[k])
  }

  predicate RawTick(tick: FixTick) {
    forall a :: a in tick.answers ==> RawAnswer(a)
  }

  predicate AdvancedIn(before: Objects, after: Objects, n: string) {
    n in before && n in after && Advances(before[n], after[n])
  }

  /** How often the progress annotation of n was raised in the first k ticks. */
  function ProgressSteps(states: seq<Objects>, middles: seq<Objects>, ticks: seq<FixTick>, n: string, k: nat): nat
    requires k <= |ticks| == |middles| < |states|
  {
    if k == 0 then 0
    else
      var bit := if AdvancedIn(Listed(states[k - 1], ticks[k - 1]), middles[k - 1], n) then 1 else 0;
      ProgressSteps(states, middles, ticks, n, k - 1) + bit
  }

  function LeftAt(objects: Objects, n: string): nat {
    if n in objects then ProgressLeft(objects[n]) else 0
  }

  lemma PhaseKeepsSurface(w: Workload, phase: Phase)
    ensures ProgressLeft(w.(phase := phase)) == ProgressLeft(w)
  {
  }

  lemma ReconcileAdvancesOnce(objects: Objects, tick: FixTick, maxAttempts: int, progressMax: int, n: string)
    requires WellNamed(objects) && LegalTick(objects, tick, maxAttempts, progressMax) && RawTick(tick)
    ensures var shown, middle := Listed(objects, tick), Reconciled(objects, tick);
      (if AdvancedIn(shown, middle, n) then 1 else 0) + LeftAt(middle, n) <= LeftAt(objects, n)
  {
    var shown, middle := Listed(objects, tick), Reconciled(objects, tick);
    var listed := Listing(shown, tick.order);
    FixPassOrigin(tick.cfg, listed, tick.answers, FixState(shown, tick.load, [], []), n);
    if n in middle {
      if n in shown && n in tick.phases {
        PhaseKeepsSurface(objects[n], tick.phases[n]);
      }
      if !Stayed(shown, middle, n) {
        var i :| 0 <= i < |listed| && RemadeAt(tick.cfg, listed, tick.answers, i, n, middle[n]);
        ListedUnderItsName(objects, tick, maxAttempts, progressMax, i);
        var load :| DecideFix(tick.cfg, listed[i], tick.answers[i], load).Remake?
          && DecideFix(tick.cfg, listed[i], tick.answers[i], load).next == middle[n];
        assert tick.answers[i] in tick.answers;
        RawQueueProgressesOnce(tick.cfg, listed[i], tick.answers[i], load);
      }
    }
  }

  lemma ListedUnderItsName(objects: Objects, tick: FixTick, maxAttempts: int, progressMax: int, i: nat)
    requires WellNamed(objects) && LegalTick(objects, tick, maxAttempts, progressMax) && i < |tick.order|
    ensures var shown := Listed(objects, tick); var w := Listing(shown, tick.order)[i];
      w.name == tick.order[i] && w.name in shown && shown[w.name] == w
  {
    ListedEntry(objects, tick, maxAttempts, progressMax, tick.order[i]);
  }

  lemma TickAdvancesOnce(
    states: seq<Objects>, middles: seq<Objects>, ticks: seq<FixTick>, maxAttempts: int, progressMax: int, n: string, k: nat)
    requires IsRun(states, middles, ticks, maxAttempts, progressMax) && RawRun(ticks) && 0 < k <= |ticks|
    ensures (if AdvancedIn(Listed(states[k - 1], ticks[k - 1]), middles[k - 1], n) then 1 else 0) + LeftAt(states[k], n)
      <= LeftAt(states[k - 1], n) + (if DrainedIn(middles[k - 1], states[k], n) then 1 else 0)
  {
    RunKeepsNames(states, middles, ticks, maxAttempts, progressMax, k - 1);
    RunLink(states, middles, ticks, maxAttempts, progressMax, k);
    assert RawTick(ticks[k - 1]);
    ReconcileAdvancesOnce(states[k - 1], ticks[k - 1], maxAttempts, progressMax, n);
    var tick, middle := ticks[k - 1], middles[k - 1];
    DrainFills(tick.cfg, tick.render, tick.queue, middle.Keys, DrainState(middle, tick.drainLoad, []), maxAttempts, progressMax, n);
  }

  /**
   * Over any run with the signatures the tick really passes, a name makes at most one progress step for every time it was
   * drained, and one if it started with a surface of its own.
   */
  lemma {:induction false} RunProgressesOnce(
    states: seq<Objects>, middles: seq<Objects>, ticks: seq<FixTick>, maxAttempts: int, progressMax: int, n: string, k: nat)
    requires IsRun(states, middles, ticks, maxAttempts, progressMax) && RawRun(ticks) && k <= |ticks|
    ensures ProgressSteps(states, middles, ticks, n, k) + LeftAt(states[k], n)
      <= LeftAt(states[0], n) + Drains(states, middles, n, k)
  {
    if k > 0 {
      RunProgressesOnce(states, middles, ticks, maxAttempts, progressMax, n, k - 1);
      TickAdvancesOnce(states, middles, ticks, maxAttempts, progressMax, n, k);
    }
  }
}
