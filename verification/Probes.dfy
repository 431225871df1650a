/** What a merge probe makes of single check runs and of a reviewer's several reviews. */
module Probes {
  import opened Outcomes
  import opened Mergeability

  /** A run has passed when its conclusion is not a failing one and it neither waits nor runs without having completed. */
  lemma RunPasses(run: CheckRun)
    ensures FailedRun(run) <==>
      run.conclusion in {"failure", "timed_out", "cancelled", "action_required", "startup_failure", "stale"}
    ensures !FailedRun(run) && !PendingRun(run) <==>
      && run.conclusion !in {"failure", "timed_out", "cancelled", "action_required", "startup_failure", "stale"}
      && run.status !in {"queued", "in_progress", "waiting", "pending", "requested"}
      && (run.conclusion != "" || run.status == "completed")
    ensures !(FailedRun(run) && PendingRun(run))
  {
  }

  /** Where a reviewer stands after all reviews: the last decision is the one that counts. */
  function Standing(reviews: seq<PrReview>, who: string): Decision {
    if reviews == [] then Undecided
    else
      var n := |reviews| - 1;
      if reviews[n].login == who && reviews[n].decision != Undecided then reviews[n].decision else Standing(reviews[..n], who)
  }

  /** Review i is where who stands. */
  predicate StandsBy(reviews: seq<PrReview>, who: string, i: nat) {
    i < |reviews| && LastDecision(reviews, i) && reviews[i].login == who
  }

  lemma StandsOn(reviews: seq<PrReview>, who: string, i: nat)
    requires reviews != [] && i < |reviews| - 1
    requires reviews[|reviews| - 1].login != who || reviews[|reviews| - 1].decision == Undecided
    ensures StandsBy(reviews, who, i) <==> StandsBy(reviews[..|reviews| - 1], who, i)
  {
    assert reviews[..|reviews|] == reviews;
    Extends(reviews, |reviews| - 1);
  }

  lemma {:induction false} StandingIs(reviews: seq<PrReview>, who: string)
    requires who != ""
    ensures forall i: nat :: StandsBy(reviews, who, i) ==> Standing(reviews, who) == reviews[i].decision
    ensures Standing(reviews, who) != Undecided <==> exists i: nat :: StandsBy(reviews, who, i)
  {
    if reviews != [] {
      var n := |reviews| - 1;
      var front := reviews[..n];
      if reviews[n].login == who && reviews[n].decision != Undecided {
        assert StandsBy(reviews, who, n);
      } else {
        StandingIs(front, who);
        forall i: nat | i < n ensures StandsBy(reviews, who, i) <==> StandsBy(front, who, i) {
          StandsOn(reviews, who, i);
        }
        if i: nat :| StandsBy(front, who, i) {
          assert StandsBy(reviews, who, i);
        }
      }
    }
  }

  /** Changes are wanted exactly when somebody stands by having asked for them. */
  lemma ChangesWantedExactly(reviews: seq<PrReview>)
    ensures ChangesWantedBy(reviews) <==> exists who :: who != "" && Standing(reviews, who) == WantsChanges
  {
    if ChangesWantedBy(reviews) {
      var i: nat :| i < |reviews| && LastDecision(reviews, i) && reviews[i].decision == WantsChanges;
      StandingIs(reviews, reviews[i].login);
      assert StandsBy(reviews, reviews[i].login, i);
    }
    if who :| who != "" && Standing(reviews, who) == WantsChanges {
      StandingIs(reviews, who);
      var i: nat :| StandsBy(reviews, who, i);
      assert LastDecision(reviews, i) && reviews[i].decision == WantsChanges;
    }
  }
}
