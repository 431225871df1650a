/** What is read off a Workload and its repo's gate profile, case by case. */
module Readings {
  import opened Outcomes
  import opened Text
  import opened Slug
  import opened Workloads
  import opened Build

  /** What every rendered Workload carries, whichever shape it has: the repo's own gate profile goes before the wildcard's. */
  lemma BuiltWorkloadCarries(
    item: ClaimedItem, attempt: int, infraAttempt: int, coder: string, feedback: string, revisionCoder: string, reviseFrom: string,
    render: Render)
    ensures var profiles := render.gateProfiles;
      var w := BuildWorkload(item, attempt, infraAttempt, coder, feedback, revisionCoder, reviseFrom, render);
      && w.spec.intent == item.intent && w.spec.repo == item.repo && w.spec.issues == [item.issueNumber] && w.lane == item.lane
      && w.spec.selfGo == render.selfGo
      && (item.repo in profiles ==> w.spec.gateProfile == Some(profiles[item.repo]))
      && (item.repo !in profiles && "*" in profiles ==> w.spec.gateProfile == Some(profiles["*"]))
      && (item.repo !in profiles && "*" !in profiles ==> w.spec.gateProfile == None)
  {
  }

  /** The wildcard has no say in the language that routes the work. */
  lemma LanguageIs(repo: string, profiles: map<string, GateProfile>)
    ensures repo in profiles ==> LanguageOf(repo, profiles) == profiles[repo].language
    ensures repo !in profiles ==> LanguageOf(repo, profiles) == None
  {
  }

  /** A counter that is absent, unreadable or below 1 reads as 1. */
  lemma CounterIs(w: Workload, key: Note, n: int)
    ensures key !in w.notes ==> Counter(w, key) == 1
    ensures key in w.notes && ParseInt(w.notes[key]) == None ==> Counter(w, key) == 1
    ensures key in w.notes && ParseInt(w.notes[key]) == Some(n) ==> Counter(w, key) == if n < 1 then 1 else n
  {
    assert ParseInt("1") == Some(1) by { IntTextRoundTrip(1); }
  }

  /** The item of a Workload that lists no issue has the number at the end of its name. */
  lemma ItemIs(w: Workload)
    ensures var item := ItemFromWorkload(w);
      && item.repo == w.spec.repo && item.intent == w.spec.intent && item.lane == w.lane
      && item.issueNumber == (if w.spec.issues == [] then IssueFromName(w.name) else w.spec.issues[0])
      && item.issueId == (if IssueId in w.notes then w.notes[IssueId] else "")
  {
  }

  // ----- Texts

  /** The ASCII characters Python counts as space. */
  lemma SpacesAre(c: char)
    ensures IsSpace(c) <==> c as int in {32, 9, 10, 11, 12, 13, 28, 29, 30, 31}
  {
  }

  /** Stripping keeps the text between space at the start and space at the end; what it keeps neither starts nor ends with one. */
  lemma {:induction false} StripIs(s: string) returns (i: nat, j: nat)
    ensures i <= j <= |s| && Strip(s) == s[i..j]
    ensures forall k :: 0 <= k < i || j <= k < |s| ==> IsSpace(s[k])
    ensures i < j ==> !IsSpace(s[i]) && !IsSpace(s[j - 1])
  {
    i, j := 0, |s|;
    if s != "" && IsSpace(s[0]) {
      i, j := StripIs(s[1..]);
      assert s[1..][i..j] == s[i + 1..j + 1];
      assert forall k :: 0 < k < |s| ==> s[k] == s[1..][k - 1];
      i, j := i + 1, j + 1;
    } else if s != "" && IsSpace(s[|s| - 1]) {
      i, j := StripIs(s[..|s| - 1]);
      assert s[..|s| - 1][i..j] == s[i..j];
    } else {
      assert s[..|s|] == s;
    }
  }

  // ----- The coder a Workload runs on

  predicate NamesCoder(step: Step) {
    step.kind == IssueFix && step.agent.Some? && step.agent.value != ""
  }

  /** Step i is the first coding step with a name on it. */
  predicate FirstNamed(steps: seq<Step>, i: nat) {
    i < |steps| && NamesCoder(steps[i]) && forall j :: 0 <= j < i ==> !NamesCoder(steps[j])
  }

  lemma {:induction false} StepCoderIs(steps: seq<Step>, i: nat)
    ensures FirstNamed(steps, i) ==> StepCoder(steps) == steps[i].agent
    ensures (forall j :: 0 <= j < |steps| ==> !NamesCoder(steps[j])) ==> StepCoder(steps) == None
  {
    if steps != [] {
      var rest := steps[1..];
      StepCoderIs(rest, if i > 0 then i - 1 else 0);
      assert forall j :: 0 <= j < |rest| ==> rest[j] == steps[j + 1];
      if FirstNamed(steps, i) && i > 0 {
        assert FirstNamed(rest, i - 1);
      }
    }
  }

  /** The coder is the one the spec names, else the one on its first coding step that names one. */
  lemma CoderIs(w: Workload, i: nat)
    ensures w.spec.coder.Some? && w.spec.coder.value != "" ==> CoderOf(w) == w.spec.coder
    ensures w.spec.coder in {None, Some("")} && FirstNamed(w.spec.pipeline, i) ==> CoderOf(w) == w.spec.pipeline[i].agent
    ensures w.spec.coder in {None, Some("")} && (forall j :: 0 <= j < |w.spec.pipeline| ==> !NamesCoder(w.spec.pipeline[j])) ==>
      CoderOf(w) == None
  {
    StepCoderIs(w.spec.pipeline, i);
  }
}
