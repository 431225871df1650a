/** The sweeps that bring back issues whose Workload is gone. */
module Stranded {
  import opened Outcomes
  import opened Slug
  import opened Workloads
  import opened Registers
  import opened Build
  import opened RetryLaws

  /** An issue as Dispatch lists it among this agent's claims. */
  datatype ClaimedIssue = ClaimedIssue(repo: string, number: Option<int>, labels: seq<string>, openPr: bool)

  datatype SweepWrites = SweepWrites(status: Write, unmark: Write, unclaim: Write)

  function RefOf(c: ClaimedIssue): Ref
    requires c.number.Some?
  {
    Ref(c.repo, c.number.value)
  }

  /** No Workload of the bridge stands behind the claim and no pull request is open for it. */
  predicate IsStranded(c: ClaimedIssue, names: set<string>) {
    c.number.Some? && WorkloadName(c.repo, c.number.value) !in names && !c.openPr
  }

  /** A stuck claim: back at status/ready by its own labels, with nothing in flight. */
  predicate IsStuck(c: ClaimedIssue, names: set<string>) {
    IsStranded(c, names) && "status/ready" in c.labels
  }

  /** What a sweep can do to one claimed issue. */
  datatype Action = Reset | TakeMark | ReportReset | Release | ReportRelease

  predicate Happens(action: Action, c: ClaimedIssue, w: SweepWrites, names: set<string>) {
    match action
    case Reset => IsStranded(c, names) && w.status.landed
    case TakeMark => IsStranded(c, names) && w.status.reply != Raises && w.unmark.landed
    case ReportReset => IsStranded(c, names) && w.status.reply != Raises && w.unmark.reply != Raises
    case Release => IsStuck(c, names) && w.unclaim.landed
    case ReportRelease => IsStuck(c, names) && w.unclaim.reply != Raises
  }

  /** The issues the action happens to among the first n claims. */
  function Refs(action: Action, claims: seq<ClaimedIssue>, writes: seq<SweepWrites>, names: set<string>, n: nat): set<Ref>
    requires n <= |claims| == |writes|
  {
    if n == 0 then {}
    else
      var hit := Happens(action, claims[n - 1], writes[n - 1], names);
      Refs(action, claims, writes, names, n - 1) + (if hit then {RefOf(claims[n - 1])} else {})
  }

  lemma {:induction false} RefsContain(
    action: Action, claims: seq<ClaimedIssue>, writes: seq<SweepWrites>, names: set<string>, n: nat, i: nat)
    requires i < n <= |claims| == |writes| && Happens(action, claims[i], writes[i], names)
    ensures RefOf(claims[i]) in Refs(action, claims, writes, names, n)
    decreases n
  {
    if i < n - 1 {
      RefsContain(action, claims, writes, names, n - 1, i);
    }
  }

  /** A sweep only ever acts on issues whose Workload is gone and that no pull request is open for. */
  lemma {:induction false} RefsAreStranded(
    action: Action, claims: seq<ClaimedIssue>, writes: seq<SweepWrites>, names: set<string>, n: nat, r: Ref)
    requires n <= |claims| == |writes| && r in Refs(action, claims, writes, names, n)
    ensures WorkloadName(r.repo, r.number) !in names
    ensures exists i :: 0 <= i < n && Happens(action, claims[i], writes[i], names) && RefOf(claims[i]) == r && !claims[i].openPr
  {
    var last := n - 1;
    if Happens(action, claims[last], writes[last], names) && RefOf(claims[last]) == r {
      assert !claims[last].openPr;
    } else {
      RefsAreStranded(action, claims, writes, names, n - 1, r);
    }
  }

  /** The claim is of issue r, which has neither a Workload nor an open pull request, and the writes the action needs did their part. */
  predicate DoneAt(action: Action, c: ClaimedIssue, w: SweepWrites, names: set<string>, r: Ref) {
    && c.number == Some(r.number) && c.repo == r.repo && !c.openPr && WorkloadName(r.repo, r.number) !in names
    && (action in {Release, ReportRelease} ==> "status/ready" in c.labels)
    && (action == Reset ==> w.status.landed)
    && (action in {TakeMark, ReportReset} ==> w.status.reply != Raises)
    && (action == TakeMark ==> w.unmark.landed)
    && (action == ReportReset ==> w.unmark.reply != Raises)
    && (action == Release ==> w.unclaim.landed)
    && (action == ReportRelease ==> w.unclaim.reply != Raises)
  }

  ghost predicate IsDone(action: Action, claims: seq<ClaimedIssue>, writes: seq<SweepWrites>, names: set<string>, r: Ref)
    requires |writes| == |claims|
  {
    exists i :: 0 <= i < |claims| && DoneAt(action, claims[i], writes[i], names, r)
  }

  lemma RefsExactly(action: Action, claims: seq<ClaimedIssue>, writes: seq<SweepWrites>, names: set<string>, r: Ref)
    requires |writes| == |claims|
    ensures r in Refs(action, claims, writes, names, |claims|) <==> IsDone(action, claims, writes, names, r)
  {
    if r in Refs(action, claims, writes, names, |claims|) {
      RefsAreStranded(action, claims, writes, names, |claims|, r);
      var i :| 0 <= i < |claims| && Happens(action, claims[i], writes[i], names) && RefOf(claims[i]) == r;
      assert DoneAt(action, claims[i], writes[i], names, r);
    }
    if IsDone(action, claims, writes, names, r) {
      var i :| 0 <= i < |claims| && DoneAt(action, claims[i], writes[i], names, r);
      RefsContain(action, claims, writes, names, |claims|, i);
    }
  }

  /** `reconcile_stranded_issues`; a status write that answered false is reported as a reset all the same. */
  method ReconcileStranded(register: Register, claims: seq<ClaimedIssue>, writes: seq<SweepWrites>, names: set<string>)
    returns (results: set<Ref>)
    requires |writes| == |claims|
    modifies register`ready, register`marked
    ensures register.ready == old(register.ready) + Refs(Reset, claims, writes, names, |claims|)
    ensures register.marked == old(register.marked) - Refs(TakeMark, claims, writes, names, |claims|)
    ensures results == Refs(ReportReset, claims, writes, names, |claims|)
    ensures forall r :: r in results <==> IsDone(ReportReset, claims, writes, names, r)
  {
    results := {};
    for i := 0 to |claims|
      invariant register.ready == old(register.ready) + Refs(Reset, claims, writes, names, i)
      invariant register.marked == old(register.marked) - Refs(TakeMark, claims, writes, names, i)
      invariant results == Refs(ReportReset, claims, writes, names, i)
    {
      var c, w := claims[i], writes[i];
      if c.number.Some? && WorkloadName(c.repo, c.number.value) !in names && !c.openPr {
        var raised := register.ToReady(RefOf(c), w.status);
        if !raised {
          raised := register.Unmark(RefOf(c), w.unmark);
          if !raised {
            results := results + {RefOf(c)};
          }
        }
      }
    }
    forall r ensures r in Refs(ReportReset, claims, writes, names, |claims|) <==> IsDone(ReportReset, claims, writes, names, r) {
      RefsExactly(ReportReset, claims, writes, names, r);
    }
  }

  predicate Unlabelled(c: ClaimedIssue) {
    c.number.Some? && c.labels == []
  }

  function UnlabelledIn(claims: seq<ClaimedIssue>): nat {
    if claims == [] then 0
    else UnlabelledIn(claims[..|claims| - 1]) + (if Unlabelled(claims[|claims| - 1]) then 1 else 0)
  }

  /** The claims that cannot be judged, by position. */
  function UnlabelledAt(claims: seq<ClaimedIssue>): set<int> {
    set i | 0 <= i < |claims| && claims[i].number.Some? && claims[i].labels == []
  }

  lemma {:induction false} UnlabelledCount(claims: seq<ClaimedIssue>)
    ensures UnlabelledIn(claims) == |UnlabelledAt(claims)|
  {
    if claims != [] {
      var n := |claims| - 1;
      UnlabelledCount(claims[..n]);
      assert UnlabelledAt(claims) == UnlabelledAt(claims[..n]) + (if Unlabelled(claims[n]) then {n} else {});
    }
  }

  method ReleaseOne(register: Register, c: ClaimedIssue, w: SweepWrites, names: set<string>)
    returns (released: set<Ref>, unlabelled: bool)
    modifies register`held
    ensures unlabelled <==> Unlabelled(c)
    ensures register.held == old(register.held) - (if Happens(Release, c, w, names) then {RefOf(c)} else {})
    ensures released == if Happens(ReportRelease, c, w, names) then {RefOf(c)} else {}
  {
    released, unlabelled := {}, false;
    if c.number.Some? {
      if c.labels == [] {
        unlabelled := true;
      } else if "status/ready" in c.labels {
        if WorkloadName(c.repo, c.number.value) !in names && !c.openPr {
          var raised := register.Unclaim(RefOf(c), w.unclaim);
          if !raised {
            released := {RefOf(c)};
          }
        }
      }
    }
  }

  /** `release_stuck_claims`; missing counts the claims it cannot judge. */
  method ReleaseStuck(register: Register, claims: seq<ClaimedIssue>, writes: seq<SweepWrites>, names: set<string>)
    returns (results: set<Ref>, missing: nat)
    requires |writes| == |claims|
    modifies register`held
    ensures register.held == old(register.held) - Refs(Release, claims, writes, names, |claims|)
    ensures forall r :: r in register.held <==> r in old(register.held) && !IsDone(Release, claims, writes, names, r)
    ensures results == Refs(ReportRelease, claims, writes, names, |claims|)
    ensures forall r :: r in results <==> IsDone(ReportRelease, claims, writes, names, r)
    ensures missing == |UnlabelledAt(claims)|
  {
    results, missing := {}, 0;
    for i := 0 to |claims|
      invariant register.held == old(register.held) - Refs(Release, claims, writes, names, i)
      invariant results == Refs(ReportRelease, claims, writes, names, i)
      invariant missing == UnlabelledIn(claims[..i])
    {
      assert claims[..i + 1][..i] == claims[..i];
      var released, unlabelled := ReleaseOne(register, claims[i], writes[i], names);
      results := results + released;
      if unlabelled {
        missing := missing + 1;
      }
    }
    assert claims[..|claims|] == claims;
    UnlabelledCount(claims);
    forall r
      ensures r in Refs(Release, claims, writes, names, |claims|) <==> IsDone(Release, claims, writes, names, r)
      ensures r in Refs(ReportRelease, claims, writes, names, |claims|) <==> IsDone(ReportRelease, claims, writes, names, r)
    {
      RefsExactly(Release, claims, writes, names, r);
      RefsExactly(ReportRelease, claims, writes, names, r);
    }
  }

  // ----- Closing the conservation argument

  /** The issue w stands for. */
  function IssueOf(w: Workload): Ref {
    var item := ItemFromWorkload(w);
    Ref(item.repo, item.issueNumber)
  }

  /** Dispatch lists the issue among the claims without an open pull request, and the sweep's write for it takes effect. */
  predicate SweptAt(claims: seq<ClaimedIssue>, writes: seq<SweepWrites>, i: nat, r: Ref)
    requires i < |claims| == |writes|
  {
    claims[i].number.Some? && RefOf(claims[i]) == r && !claims[i].openPr && writes[i].status.landed
  }

  ghost predicate Swept(claims: seq<ClaimedIssue>, writes: seq<SweepWrites>, r: Ref)
    requires |writes| == |claims|
  {
    exists i :: 0 <= i < |claims| && SweptAt(claims, writes, i, r)
  }

  /** A claim of an issue without a Workload is what the sweep calls stranded. */
  lemma LostIsStranded(w: Workload, c: ClaimedIssue, names: set<string>)
    requires IssueNamed(w) && w.name !in names && c.number.Some? && RefOf(c) == IssueOf(w) && !c.openPr
    ensures IsStranded(c, names)
  {
  }
}
