/** Classifying a pull request from what GitHub answers about it, its checks and its reviews. */
module Mergeability {
  import opened Outcomes

  datatype MergeStatus =
    | MergeOk | Dirty | Conflicting | ChecksFailed | ChecksPending | Merged | ClosedPr | ChangesRequested | BlockedPr

  /** A check run, with the state and conclusion texts in lower case. */
  datatype CheckRun = CheckRun(status: string, conclusion: string)

  datatype Decision = Approved | WantsChanges | Undecided

  /** A review; an empty login is a review without a user. */
  datatype PrReview = PrReview(login: string, decision: Decision)

  /** The PR as fetched; an empty headSha means no head commit was given. */
  datatype PullRequest = PullRequest(merged: bool, closed: bool, mergeState: string, headSha: string)

  /** Everything GitHub answers about one pull request. */
  datatype PrView = PrView(pull: Try<PullRequest>, runs: Try<seq<CheckRun>>, reviews: Try<seq<PrReview>>)

  const FAILING: set<string> := {"failure", "timed_out", "cancelled", "action_required", "startup_failure", "stale"}
  const PENDING: set<string> := {"queued", "in_progress", "waiting", "pending", "requested"}

  predicate FailedRun(run: CheckRun) {
    run.conclusion in FAILING
  }

  predicate PendingRun(run: CheckRun) {
    !FailedRun(run) && (run.status in PENDING || (run.conclusion == "" && run.status != "completed"))
  }

  /** review i is the last one its author decided with. */
  predicate LastDecision(reviews: seq<PrReview>, i: nat)
    requires i < |reviews|
  {
    && reviews[i].login != "" && reviews[i].decision != Undecided
    && forall j :: i < j < |reviews| && reviews[j].login == reviews[i].login ==> reviews[j].decision == Undecided
  }

  /** Someone's last decisive review asks for changes. */
  predicate ChangesWantedBy(reviews: seq<PrReview>) {
    exists i :: 0 <= i < |reviews| && LastDecision(reviews, i) && reviews[i].decision == WantsChanges
  }

  /** Folds the runs into the two flags the classification looks at. */
  method ScanRuns(runs: seq<CheckRun>) returns (hasFailed: bool, hasPending: bool)
    ensures hasFailed <==> exists run :: run in runs && FailedRun(run)
    ensures hasPending <==> exists run :: run in runs && PendingRun(run)
  {
    hasFailed, hasPending := false, false;
    for i := 0 to |runs|
      invariant hasFailed <==> exists k :: 0 <= k < i && FailedRun(runs[k])
      invariant hasPending <==> exists k :: 0 <= k < i && PendingRun(runs[k])
    {
      var run := runs[i];
      if run.conclusion in FAILING {
        hasFailed := true;
      } else if run.status in PENDING || (run.conclusion == "" && run.status != "completed") {
        hasPending := true;
      }
    }
  }

  /** Keeps each reviewer's latest decision; the last one wins. */
  method LatestDecisions(reviews: seq<PrReview>) returns (latest: map<string, Decision>)
    ensures forall who :: who in latest <==> exists i :: 0 <= i < |reviews| && LastDecision(reviews, i) && reviews[i].login == who
    ensures forall i :: 0 <= i < |reviews| && LastDecision(reviews, i) ==>
      reviews[i].login in latest && latest[reviews[i].login] == reviews[i].decision
  {
    latest := map[];
    for n := 0 to |reviews|
      invariant forall who :: who in latest ==> exists i :: 0 <= i < n && LastDecision(reviews[..n], i) && reviews[i].login == who
      invariant forall i :: 0 <= i < n && LastDecision(reviews[..n], i) ==>
        reviews[i].login in latest && latest[reviews[i].login] == reviews[i].decision
    {
      var review := reviews[n];
      ghost var before, after := reviews[..n], reviews[..n + 1];
      Extends(reviews, n);
      if review.decision != Undecided && review.login != "" {
        latest := latest[review.login := review.decision];
      }
    }
    assert reviews[..|reviews|] == reviews;
  }

  /** One more review: it is decisive itself, and it only unseats its own author's earlier decision. */
  lemma Extends(reviews: seq<PrReview>, n: nat)
    requires n < |reviews|
    ensures LastDecision(reviews[..n + 1], n) <==> reviews[n].login != "" && reviews[n].decision != Undecided
    ensures forall i :: 0 <= i < n ==>
      (LastDecision(reviews[..n + 1], i) <==>
        LastDecision(reviews[..n], i) && (reviews[n].login == reviews[i].login ==> reviews[n].decision == Undecided))
  {
  }

  predicate Blocking(mergeState: string) {
    mergeState == "unstable" || mergeState == "blocked"
  }

  /** No run reported for the head commit is failing or pending; a list that could not be fetched is no proof of that. */
  predicate ChecksPassed(v: PrView) {
    v.pull.Returned? &&
    (v.pull.value.headSha != "" ==>
      v.runs.Returned? && forall run :: run in v.runs.value ==> !FailedRun(run) && !PendingRun(run))
  }

  /** What it takes to read a pull request as mergeable. */
  predicate Mergeable(v: PrView) {
    && v.pull.Returned? && !v.pull.value.merged && !v.pull.value.closed
    && v.pull.value.mergeState !in {"", "unknown", "dirty", "conflicting", "unstable", "blocked"}
    && ChecksPassed(v)
  }

  /** Fetched, and neither merged nor closed. */
  predicate IsOpen(v: PrView) {
    v.pull.Returned? && !v.pull.value.merged && !v.pull.value.closed
  }

  predicate SomeFailed(v: PrView) {
    v.runs.Returned? && exists run :: run in v.runs.value && FailedRun(run)
  }

  function Classify(v: PrView): MergeStatus {
    if v.pull.Raised? then ChecksPending
    else
      var pr := v.pull.value;
      if pr.merged then Merged
      else if pr.closed then ClosedPr
      else if pr.mergeState == "dirty" then Dirty
      else if pr.mergeState == "conflicting" then Conflicting
      else if pr.mergeState == "unknown" || pr.mergeState == "" then ChecksPending
      else if pr.headSha != "" && SomeFailed(v) then ChecksFailed
      else if !ChecksPassed(v) then ChecksPending
      else if !Blocking(pr.mergeState) then MergeOk
      else if v.reviews.Returned? && ChangesWantedBy(v.reviews.value) then ChangesRequested
      else BlockedPr
  }

  /** `check_pr_mergeable`; a failed fetch never reads as success. */
  method CheckPrMergeable(v: PrView) returns (status: MergeStatus)
    ensures status == Classify(v)
    ensures status == Merged <==> v.pull.Returned? && v.pull.value.merged
    ensures status == ClosedPr <==> v.pull.Returned? && !v.pull.value.merged && v.pull.value.closed
    ensures status == MergeOk <==> Mergeable(v)
    ensures status == ChangesRequested <==>
      IsOpen(v) && Blocking(v.pull.value.mergeState) && ChecksPassed(v) && v.reviews.Returned? && ChangesWantedBy(v.reviews.value)
    ensures status == BlockedPr <==>
      && IsOpen(v) && Blocking(v.pull.value.mergeState) && ChecksPassed(v)
      && !(v.reviews.Returned? && ChangesWantedBy(v.reviews.value))
    ensures status == Dirty <==> IsOpen(v) && v.pull.value.mergeState == "dirty"
    ensures status == Conflicting <==> IsOpen(v) && v.pull.value.mergeState == "conflicting"
    ensures status == ChecksFailed <==>
      IsOpen(v) && v.pull.value.mergeState !in {"", "unknown", "dirty", "conflicting"} && v.pull.value.headSha != "" && SomeFailed(v)
    ensures v.pull.Raised? ==> status == ChecksPending
  {
    if v.pull.Raised? {
      return ChecksPending;
    }
    var pr := v.pull.value;
    if pr.merged {
      return Merged;
    }
    if pr.closed {
      return ClosedPr;
    }
    if pr.mergeState == "dirty" {
      return Dirty;
    }
    if pr.mergeState == "conflicting" {
      return Conflicting;
    }
    if pr.mergeState == "unknown" || pr.mergeState == "" {
      return ChecksPending;
    }
    if pr.headSha != "" {
      if v.runs.Raised? {
        return ChecksPending;
      }
      var hasFailed, hasPending := ScanRuns(v.runs.value);
      if hasFailed {
        return ChecksFailed;
      }
      if hasPending {
        return ChecksPending;
      }
    }
    if Blocking(pr.mergeState) {
      if v.reviews.Returned? {
        var latest := LatestDecisions(v.reviews.value);
        if exists who :: who in latest && latest[who] == WantsChanges {
          return ChangesRequested;
        }
      }
      return BlockedPr;
    }
    return MergeOk;
  }

  /** The two classifications that can settle a fix, by what GitHub said. */
  lemma SettlingViews(v: PrView)
    ensures Classify(v) == Merged <==> v.pull.Returned? && v.pull.value.merged
    ensures Classify(v) == MergeOk <==> Mergeable(v)
  {
  }
}
