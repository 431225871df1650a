/** How far a tick gets: what each stage needs of the stages and listings before it, and what is left undone without that. */
module Stages {
  import opened Outcomes
  import opened Workloads
  import opened Ticks
  import R = Retry
  import F = PrFix
  import I = InfraPass
  import C = Claims
  import V = ReviewTransition
  import D = Verdicts
  import RL = RetryLaws

  // ----- What a stage can end on

  /** The i-th Failed Workload is due for a retry and its task list cannot be read. */
  predicate RaisesAt(t: TickInput, i: nat)
    requires Sized(t) && i < |t.failed|
  {
    var w, a := t.failed[i], t.retryAnswers[i];
    D.GoesOn(w, a) && D.HasBudget(t.retry, w, a) && a.pushTasks.Raised?
  }

  /** The failures could be listed and none of them raised out of the pass. */
  predicate RetriesDone(t: TickInput)
    requires Sized(t)
  {
    FailedListing !in t.broken && forall i :: 0 <= i < |t.failed| ==> !RaisesAt(t, i)
  }

  /** Under a cap, the Workloads at work could be listed too. */
  predicate ClaimsMade(t: TickInput)
    requires Sized(t)
  {
    RetriesDone(t) && (t.claim.maxInProgress == 0 || ActiveListing !in t.broken)
  }

  /** None of the first n creates raised. */
  predicate AllStored(world: C.ClaimWorld, n: nat) {
    forall k :: 0 <= k < n && k < |world.creates| ==> world.creates[k] == Stored
  }

  /** And every create of a claim worked. */
  predicate ClaimsDone(t: TickInput, v: Found)
    requires Sized(t) && C.Ends(t.claim, t.world)
  {
    ClaimsMade(t) && AllStored(t.world, ClaimEnd(t, v).creates)
  }

  /** With fixes on, they and the names of those in flight could be listed. */
  predicate FixesDone(t: TickInput, v: Found)
    requires Sized(t) && C.Ends(t.claim, t.world)
  {
    ClaimsDone(t, v) && (t.fixEnabled ==> FixListing !in t.broken && FixNames !in t.broken)
  }

  predicate LoadKnown(t: TickInput) {
    t.retry.slots == map[] || LoadListing !in t.broken
  }

  /** The finished Workloads could be listed, and the tasks of those that were issues' own could be read. */
  predicate ReviewDone(t: TickInput) {
    && ReviewListing !in t.broken
    && forall i :: 0 <= i < |t.turns| && t.turns[i].w.phase == Completed && t.turns[i].w.createdBy != PrFixBridge ==>
      t.turns[i].tasks.Returned?
  }

  lemma RetriesStop(t: TickInput)
    requires Sized(t)
    ensures RetriesDone(t) <==> !RetryStops(t)
  {
    forall i: nat | i < |t.failed| ensures RaisesAt(t, i) <==> RL.AbortsOn(t.retry, t.failed[i], t.retryAnswers[i]) {
      D.ReachesExactly(t.retry, t.failed[i], t.retryAnswers[i]);
    }
  }

  lemma LastOneRaised(world: C.ClaimWorld, st: C.ClaimState)
    requires C.RaisedByLast(world, 0, st)
    ensures AllStored(world, st.creates) <==> !st.raised
  {
    forall k: nat | k < st.creates ensures C.CreateAt(world, k) == Stored <==> k < |world.creates| ==> world.creates[k] == Stored {
    }
  }

  lemma CreatesRaise(t: TickInput, v: Found)
    requires Sized(t) && C.Ends(t.claim, t.world)
    ensures AllStored(t.world, ClaimEnd(t, v).creates) <==> !ClaimEnd(t, v).raised
  {
    var before := RedriveEnd(t, v);
    C.PassRaises(t.claim, t.world, t.lanes, t.snapshot, C.ClaimState(before.objects, v.register, 0, before.load, t.active, [], false));
    LastOneRaised(t.world, ClaimEnd(t, v));
  }

  // ----- The stages

  /** Without the failures nothing is retried. */
  lemma RetryStage(t: TickInput, v: Found)
    requires Sized(t)
    ensures var st := R.PassState(v.objects, v.start, [], false);
      RetryEnd(t, v) == if FailedListing in t.broken then st else R.Pass(t.retry, t.failed, t.retryAnswers, st)
  {
  }

  /** Unless the retries are done nothing is redriven. */
  lemma RedriveStage(t: TickInput, v: Found)
    requires Sized(t)
    ensures var before := RetryEnd(t, v);
      var st := I.InfraState(before.objects, before.load, v.labels, []);
      RedriveEnd(t, v) == if RetriesDone(t) then I.ParkedPass(t.infra, t.probe, t.parked, t.infraAnswers, st) else st
  {
    RetriesStop(t);
  }

  /** Unless the claims can be counted none is made. */
  lemma ClaimStage(t: TickInput, v: Found)
    requires Sized(t) && C.Ends(t.claim, t.world)
    ensures var before := RedriveEnd(t, v);
      var st := C.ClaimState(before.objects, v.register, 0, before.load, t.active, [], false);
      ClaimEnd(t, v) == if ClaimsMade(t) then C.ClaimPass(t.claim, t.world, t.lanes, t.snapshot, st) else st
  {
    RetriesStop(t);
  }

  /** Unless every create worked and the fixes could be listed, none is touched; they go on from the load the claims copied. */
  lemma FixStage(t: TickInput, v: Found)
    requires Sized(t) && C.Ends(t.claim, t.world)
    ensures var st := F.FixState(ClaimEnd(t, v).objects, RedriveEnd(t, v).load, [], []);
      FixEnd(t, v) == if ClaimsDone(t, v) && t.fixEnabled && FixListing !in t.broken
        then F.FixPass(t.fix, t.fixes, t.fixAnswers, st) else st
  {
    RetriesStop(t);
    CreatesRaise(t, v);
  }

  /** Unless their names could be listed as well, none is drained; those in flight are the ones the cluster then holds. */
  lemma DrainStage(t: TickInput, v: Found, names: set<string>)
    requires Sized(t) && C.Ends(t.claim, t.world)
    requires forall n :: n in names <==> n in FixEnd(t, v).objects && FixEnd(t, v).objects[n].createdBy == PrFixBridge
    ensures var before := FixEnd(t, v);
      var st := F.DrainState(before.objects, before.load, []);
      DrainEnd(t, v) == if FixesDone(t, v) && t.fixEnabled then F.Drain(t.fix, t.render, t.queue, names, st) else st
  {
    RetriesStop(t);
    CreatesRaise(t, v);
    assert names == FixNamesIn(FixEnd(t, v).objects);
  }

  /** Unless the tick got that far no card is moved, and unless the review is done as well nothing is swept. */
  lemma LastStages(t: TickInput, v: Found, before: Issues)
    requires Sized(t) && C.Ends(t.claim, t.world)
    ensures var reviews := LoadKnown(t) && FixesDone(t, v) && ReviewListing !in t.broken;
      && IssuesEnd(t, v, before).cards == (if reviews then V.TakeAll(V.State(before.cards, [], false), t.turns).cards else before.cards)
      && (EndsBeforeSweep(t, v) <==>
        !(LoadKnown(t) && FixesDone(t, v) && ReviewDone(t)) || NameListing in t.broken || ClaimedListing in t.broken)
  {
    RetriesStop(t);
    CreatesRaise(t, v);
  }

  /** Without the load the tick leaves everything as it found it. */
  lemma NothingWithoutLoad(t: TickInput, v: Found, before: Issues)
    requires Sized(t) && C.Ends(t.claim, t.world) && !LoadKnown(t)
    ensures var left := LeftBy(t, v);
      left.objects == v.objects && left.labels == v.labels && left.register == v.register && left.results == []
    ensures IssuesEnd(t, v, before) == before
  {
  }
}
