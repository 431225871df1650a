/** That an issue parked for a broken model is redriven once the model is back, and is then through with the markers. */
module Redrives {
  import opened Outcomes
  import opened Slug
  import opened Workloads
  import opened Coders
  import opened Build
  import opened Infra
  import opened InfraPass

  // ----- What clearing the markers takes off

  predicate IsMarker(l: string) {
    l == "blocked/infra" || "blocked/infra-model/" <= l || "blocked/infra-attempt/" <= l
  }

  lemma {:induction false} MarkersAre(labels: seq<string>, l: string)
    ensures l in MarkerLabels(labels) <==> l in labels && IsMarker(l)
  {
    if labels != [] {
      MarkersAre(labels[1..], l);
      assert labels == [labels[0]] + labels[1..];
    }
  }

  /** The world's answers to a redrive that goes well to the end. */
  predicate GoesWell(issue: Issue, a: InfraAnswers) {
    && a.create == Stored && a.status == Yes && a.unlabel == Yes
    && forall k :: 0 <= k < |MarkerLabels(issue.labels)| && k < |a.cleared.removed| ==> a.cleared.removed[k] == Yes
  }

  lemma WellExactly(issue: Issue, a: InfraAnswers)
    ensures GoesWell(issue, a) <==>
      a.create == Stored && a.status == Yes && a.unlabel == Yes && AllYes(a.cleared.removed, |MarkerLabels(issue.labels)|)
  {
    if GoesWell(issue, a) {
      forall k | 0 <= k < |MarkerLabels(issue.labels)| ensures ReplyAt(a.cleared.removed, k) == Yes {
      }
    }
    if AllYes(a.cleared.removed, |MarkerLabels(issue.labels)|) {
      forall k | 0 <= k < |MarkerLabels(issue.labels)| && k < |a.cleared.removed| ensures a.cleared.removed[k] == Yes {
        assert ReplyAt(a.cleared.removed, k) == Yes;
      }
    }
  }

  /** Then the human marker and every infra marker are gone, and nothing else. */
  lemma WellClears(issue: Issue, a: InfraAnswers, l: string)
    requires GoesWell(issue, a)
    ensures l in RedrivenLabels(issue, a) <==> l in issue.labels && l != NEEDS_HUMAN && !IsMarker(l)
  {
    var markers, unmarked := MarkerLabels(issue.labels), Without(issue.labels, NEEDS_HUMAN);
    WithoutMembers(issue.labels, NEEDS_HUMAN, l);
    RemovalsKeep(unmarked, markers, a.cleared.removed, l);
    MarkersAre(issue.labels, l);
    WellExactly(issue, a);
    assert l in markers ==> exists k :: 0 <= k < |markers| && markers[k] == l;
  }

  // ----- One issue's turn

  /** The issue's model is known by name and answered its probe. */
  predicate ModelIsBack(probe: Probe, issue: Issue) {
    var model := InfraModel(issue.labels);
    model != "" && model != "unknown" && model in probe && probe[model] == Yes
  }

  /** The coder it would go to has a slot, where slots are declared at all. */
  predicate CoderIsFree(cfg: InfraConfig, issue: Issue, load: Load) {
    cfg.slots == map[] || Held(load, RedriveCoder(cfg, issue)) < SlotsFor(RedriveCoder(cfg, issue), cfg.slots)
  }

  /** That coder is the one its lane routes to, on a lane of its own, the first polled one or "local". */
  lemma RedriveCoderIs(cfg: InfraConfig, issue: Issue)
    ensures var lane := if issue.lane != "" then issue.lane else if cfg.lanes == [] then "local" else cfg.lanes[0];
      && RedriveCoder(cfg, issue) == CoderFor(
        lane, LanguageOf(issue.repo, cfg.render.gateProfiles), issue.repo, issue.number, cfg.routing, map[], map[], {})
      && RedriveManifest(cfg, issue).lane == lane && ItemFromWorkload(RedriveManifest(cfg, issue)).issueId == issue.id
  {
    var item := RedriveItem(cfg, issue);
    BuiltWorkloadReadsBack(item, 1, 1, RedriveCoder(cfg, issue), "", "", BranchName(item.repo, item.issueNumber), cfg.render);
  }

  /** What a healthy issue's turn comes to when its coder is free. */
  ghost predicate IsRedriven(cfg: InfraConfig, issue: Issue, a: InfraAnswers, objects: Objects, load: Load, e: InfraEffect) {
    var coder, model := RedriveCoder(cfg, issue), InfraModel(issue.labels);
    && (a.create == Stored ==>
      && WorkloadName(issue.repo, issue.number) in e.objects
      && (WorkloadName(issue.repo, issue.number) !in objects ==>
        e.objects[WorkloadName(issue.repo, issue.number)] == RedriveManifest(cfg, issue))
      && Held(e.load, coder) == Held(load, coder) + 1)
    && (a.create != Stored ==> e.load == load && e.labels == issue.labels)
    && (a.create == Stored && !(a.status == Yes && a.unlabel == Yes) ==>
      forall l :: l in e.labels <==> l in issue.labels && (l == NEEDS_HUMAN ==> a.status == Raises || a.unlabel != Yes))
    && (e.tag == if GoesWell(issue, a) then Redriven(model) else RedriveFailed(model))
    && (GoesWell(issue, a) ==> forall l :: l in e.labels <==> l in issue.labels && l != NEEDS_HUMAN && !IsMarker(l))
  }

  lemma TurnRedrives(cfg: InfraConfig, probe: Probe, issue: Issue, a: InfraAnswers, objects: Objects, load: Load)
    requires ModelIsBack(probe, issue) && CoderIsFree(cfg, issue, load)
    ensures IsRedriven(cfg, issue, a, objects, load, HandleIssue(cfg, probe, issue, a, objects, load))
  {
    forall l ensures l in Without(issue.labels, NEEDS_HUMAN) <==> l in issue.labels && l != NEEDS_HUMAN {
      WithoutMembers(issue.labels, NEEDS_HUMAN, l);
    }
    WellExactly(issue, a);
    if GoesWell(issue, a) {
      forall l ensures l in RedrivenLabels(issue, a) <==> l in issue.labels && l != NEEDS_HUMAN && !IsMarker(l) {
        WellClears(issue, a, l);
      }
    }
  }

  /** A full coder puts it off: nothing is created, charged or taken off. */
  lemma FullCoderWaits(cfg: InfraConfig, probe: Probe, issue: Issue, a: InfraAnswers, objects: Objects, load: Load)
    requires ModelIsBack(probe, issue) && !CoderIsFree(cfg, issue, load)
    ensures HandleIssue(cfg, probe, issue, a, objects, load)
      == InfraEffect(objects, load, issue.labels, RedriveFailed(InfraModel(issue.labels)))
  {
  }

  /** Without its model the issue is counted on or handed over, and nothing is created or charged. */
  lemma MissingModelCounts(cfg: InfraConfig, probe: Probe, issue: Issue, a: InfraAnswers, objects: Objects, load: Load)
    requires !ModelIsBack(probe, issue)
    ensures var e := HandleIssue(cfg, probe, issue, a, objects, load);
      && e.objects == objects && e.load == load
      && e.tag == (if FailureCount(issue.labels) + 1 >= cfg.maxFailures then HandedToHuman(InfraModel(issue.labels))
        else StillUnhealthy(FailureCount(issue.labels) + 1))
  {
  }

  // ----- The pass

  /** The pass keeps every Workload, lowers no load, and leaves r's labels and the results so far alone once its turn is over. */
  ghost predicate LeavesTurn(before: InfraState, after: InfraState, r: Ref) {
    && (forall n :: n in before.objects ==> n in after.objects && after.objects[n] == before.objects[n])
    && (forall c :: Held(before.load, c) <= Held(after.load, c))
    && before.results <= after.results
    && r in before.labels && r in after.labels && before.labels[r] == after.labels[r]
  }

  lemma HandleGrows(cfg: InfraConfig, probe: Probe, issue: Issue, a: InfraAnswers, objects: Objects, load: Load)
    ensures var e := HandleIssue(cfg, probe, issue, a, objects, load);
      && (forall n :: n in objects ==> n in e.objects && e.objects[n] == objects[n])
      && (forall c :: Held(load, c) <= Held(e.load, c))
  {
  }

  lemma TurnLeaves(cfg: InfraConfig, probe: Probe, issue: Issue, a: InfraAnswers, before: InfraState, r: Ref)
    requires r in before.labels && RefOf(issue) != r
    ensures var e := HandleIssue(cfg, probe, issue, a, before.objects, before.load);
      LeavesTurn(before, InfraState(e.objects, e.load, before.labels[RefOf(issue) := e.labels], before.results + [e.tag]), r)
  {
    HandleGrows(cfg, probe, issue, a, before.objects, before.load);
  }

  lemma LeavesOn(x: InfraState, y: InfraState, z: InfraState, r: Ref)
    requires LeavesTurn(x, y, r) && LeavesTurn(y, z, r)
    ensures LeavesTurn(x, z, r)
  {
  }

  lemma PassGoesOn(cfg: InfraConfig, probe: Probe, issues: seq<Issue>, answers: seq<InfraAnswers>, st: InfraState, r: Ref, n: nat)
    requires |answers| == |issues| == n + 1 && RefOf(issues[n]) != r && r in ParkedPass(cfg, probe, issues[..n], answers[..n], st).labels
    ensures LeavesTurn(ParkedPass(cfg, probe, issues[..n], answers[..n], st), ParkedPass(cfg, probe, issues, answers, st), r)
  {
    TurnLeaves(cfg, probe, issues[n], answers[n], ParkedPass(cfg, probe, issues[..n], answers[..n], st), r);
  }

  lemma {:induction false} TurnLasts(
    cfg: InfraConfig, probe: Probe, issues: seq<Issue>, answers: seq<InfraAnswers>, st: InfraState, r: Ref, i: nat, here: InfraState)
    requires |answers| == |issues| && OnlyAt(issues, r, i) && here == ParkedPass(cfg, probe, issues[..i + 1], answers[..i + 1], st)
    requires r in here.labels
    ensures LeavesTurn(here, ParkedPass(cfg, probe, issues, answers, st), r)
    decreases |issues|
  {
    var n := |issues| - 1;
    if i == n {
      assert issues[..i + 1] == issues && answers[..i + 1] == answers;
    } else {
      assert issues[..n][..i + 1] == issues[..i + 1] && answers[..n][..i + 1] == answers[..i + 1];
      TurnLasts(cfg, probe, issues[..n], answers[..n], st, r, i, here);
      PassGoesOn(cfg, probe, issues, answers, st, r, n);
      LeavesOn(here, ParkedPass(cfg, probe, issues[..n], answers[..n], st), ParkedPass(cfg, probe, issues, answers, st), r);
    }
  }

  /** What the pass was before the i-th issue, and what its turn made of that. */
  lemma TurnIs(cfg: InfraConfig, probe: Probe, issues: seq<Issue>, answers: seq<InfraAnswers>, st: InfraState, i: nat)
    requires |answers| == |issues| && i < |issues|
    ensures var before := ParkedPass(cfg, probe, issues[..i], answers[..i], st);
      var e := HandleIssue(cfg, probe, issues[i], answers[i], before.objects, before.load);
      ParkedPass(cfg, probe, issues[..i + 1], answers[..i + 1], st)
        == InfraState(e.objects, e.load, before.labels[RefOf(issues[i]) := e.labels], before.results + [e.tag])
  {
    assert issues[..i + 1][..i] == issues[..i] && answers[..i + 1][..i] == answers[..i];
  }

  lemma {:induction false} ResultsCount(cfg: InfraConfig, probe: Probe, issues: seq<Issue>, answers: seq<InfraAnswers>, st: InfraState)
    requires |answers| == |issues|
    ensures |ParkedPass(cfg, probe, issues, answers, st).results| == |st.results| + |issues|
  {
    if issues != [] {
      ResultsCount(cfg, probe, issues[..|issues| - 1], answers[..|issues| - 1], st);
    }
  }

  /** The issue is listed once, its model is back, and its coder is free when its turn comes. */
  predicate IsDue(cfg: InfraConfig, probe: Probe, issues: seq<Issue>, answers: seq<InfraAnswers>, st: InfraState, r: Ref, i: nat)
    requires |answers| == |issues|
  {
    && OnlyAt(issues, r, i) && ModelIsBack(probe, issues[i])
    && CoderIsFree(cfg, issues[i], ParkedPass(cfg, probe, issues[..i], answers[..i], st).load)
  }

  /** Its turn redrives it, and the rest of the pass leaves that alone. */
  lemma DueIsRedriven(
    cfg: InfraConfig, probe: Probe, issues: seq<Issue>, answers: seq<InfraAnswers>, st: InfraState, r: Ref, i: nat, before: InfraState,
    e: InfraEffect)
    requires |answers| == |issues| && IsDue(cfg, probe, issues, answers, st, r, i)
    requires before == ParkedPass(cfg, probe, issues[..i], answers[..i], st)
    requires e == HandleIssue(cfg, probe, issues[i], answers[i], before.objects, before.load)
    ensures IsRedriven(cfg, issues[i], answers[i], before.objects, before.load, e)
    ensures LeavesTurn(
      InfraState(e.objects, e.load, before.labels[r := e.labels], before.results + [e.tag]), ParkedPass(cfg, probe, issues, answers, st), r)
  {
    TurnIs(cfg, probe, issues, answers, st, i);
    TurnLasts(cfg, probe, issues, answers, st, r, i, ParkedPass(cfg, probe, issues[..i + 1], answers[..i + 1], st));
    TurnRedrives(cfg, probe, issues[i], answers[i], before.objects, before.load);
  }

  /** If its create is stored, a Workload stands under its name when the pass is over, and its coder holds one more. */
  lemma DueIsCreated(
    cfg: InfraConfig, probe: Probe, issues: seq<Issue>, answers: seq<InfraAnswers>, st: InfraState, r: Ref, i: nat)
    requires |answers| == |issues| && IsDue(cfg, probe, issues, answers, st, r, i) && answers[i].create == Stored
    ensures var before, after := ParkedPass(cfg, probe, issues[..i], answers[..i], st), ParkedPass(cfg, probe, issues, answers, st);
      var name, coder := WorkloadName(issues[i].repo, issues[i].number), RedriveCoder(cfg, issues[i]);
      && name in after.objects
      && after.objects[name] == (if name in before.objects then before.objects[name] else RedriveManifest(cfg, issues[i]))
      && Held(after.load, coder) >= Held(before.load, coder) + 1
  {
    var before := ParkedPass(cfg, probe, issues[..i], answers[..i], st);
    var e := HandleIssue(cfg, probe, issues[i], answers[i], before.objects, before.load);
    DueIsRedriven(cfg, probe, issues, answers, st, r, i, before, e);
    HandleGrows(cfg, probe, issues[i], answers[i], before.objects, before.load);
  }

  /**
   * It is reported redriven exactly when every write worked, and then carries neither the human marker nor any infra marker, so
   * that the next listing does not show it.
   */
  lemma DueIsCleared(
    cfg: InfraConfig, probe: Probe, issues: seq<Issue>, answers: seq<InfraAnswers>, st: InfraState, r: Ref, i: nat)
    requires |answers| == |issues| && IsDue(cfg, probe, issues, answers, st, r, i)
    ensures var after, issue, well := ParkedPass(cfg, probe, issues, answers, st), issues[i], GoesWell(issues[i], answers[i]);
      && |st.results| + i < |after.results| && r in after.labels
      && after.results[|st.results| + i]
        == (if well then Redriven(InfraModel(issue.labels)) else RedriveFailed(InfraModel(issue.labels)))
      && (well ==> BLOCKED_LABEL !in after.labels[r])
      && (well ==> forall l :: l in after.labels[r] <==> l in issue.labels && l != NEEDS_HUMAN && !IsMarker(l))
  {
    var before := ParkedPass(cfg, probe, issues[..i], answers[..i], st);
    var e := HandleIssue(cfg, probe, issues[i], answers[i], before.objects, before.load);
    DueIsRedriven(cfg, probe, issues, answers, st, r, i, before, e);
    ResultsCount(cfg, probe, issues[..i], answers[..i], st);
  }

  /** The turn itself charges the coder by exactly one, and only for a stored create. */
  lemma TurnCharges(cfg: InfraConfig, probe: Probe, issue: Issue, a: InfraAnswers, objects: Objects, load: Load, c: string)
    ensures var e := HandleIssue(cfg, probe, issue, a, objects, load);
      var charged := ModelIsBack(probe, issue) && CoderIsFree(cfg, issue, load) && a.create == Stored;
      Held(e.load, c) == Held(load, c) + (if charged && c == RedriveCoder(cfg, issue) then 1 else 0)
  {
  }
}
