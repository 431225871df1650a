/** Recovering issues parked for a broken model: the countdown lives in the issue's labels. */
module Infra {
  import opened Outcomes
  import opened Text
  import opened Slug
  import opened Workloads
  import opened Coders
  import opened Build

  const BLOCKED_LABEL := "blocked/infra"
  const MODEL_PREFIX := "blocked/infra-model/"
  const ATTEMPT_PREFIX := "blocked/infra-attempt/"
  const UNKNOWN := "unknown"

  datatype Issue = Issue(number: int, repo: string, title: string, lane: string, id: string, labels: seq<string>)

  // ----- What the labels say

  predicate IsAttempt(l: string) {
    ATTEMPT_PREFIX <= l
  }

  predicate IsModel(l: string) {
    MODEL_PREFIX <= l
  }

  /** `infra_model_from_labels`: the first model label decides. */
  function InfraModel(labels: seq<string>): (model: string)
    ensures model != ""
  {
    if labels == [] then UNKNOWN else if IsModel(labels[0]) then ModelIn(labels[0]) else InfraModel(labels[1..])
  }

  /** The first model label decides. */
  lemma {:induction false} FirstModelDecides(labels: seq<string>, i: nat)
    requires i < |labels| && IsModel(labels[i]) && forall j :: 0 <= j < i ==> !IsModel(labels[j])
    ensures InfraModel(labels) == ModelIn(labels[i])
  {
    if i > 0 {
      assert !IsModel(labels[0]);
      FirstModelDecides(labels[1..], i - 1);
    }
  }

  /** Without one the model is unknown. */
  lemma {:induction false} NoModelIsUnknown(labels: seq<string>)
    requires forall j :: 0 <= j < |labels| ==> !IsModel(labels[j])
    ensures InfraModel(labels) == UNKNOWN
  {
    if labels != [] {
      NoModelIsUnknown(labels[1..]);
    }
  }

  /** The name after the prefix, or the unknown model when there is none. */
  function ModelIn(l: string): string
    requires IsModel(l)
  {
    if |l| == |MODEL_PREFIX| then UNKNOWN else l[|MODEL_PREFIX|..]
  }

  /** `infra_marker_labels`. */
  function MarkerLabels(labels: seq<string>): seq<string> {
    if labels == [] then []
    else
      (if labels[0] == BLOCKED_LABEL || IsModel(labels[0]) || IsAttempt(labels[0]) then [labels[0]] else []) + MarkerLabels(labels[1..])
  }

  function CountOf(l: string): Option<int> {
    if IsAttempt(l) then ParseInt(l[|ATTEMPT_PREFIX|..]) else None
  }

  function HighestCount(labels: seq<string>): Option<int> {
    if labels == [] then None
    else
      var n := |labels| - 1;
      var rest, last := HighestCount(labels[..n]), CountOf(labels[n]);
      if last.None? then rest
      else if rest.Some? && rest.value > last.value then rest
      else last
  }

  /** `infra_failure_count`. */
  function FailureCount(labels: seq<string>): int {
    match HighestCount(labels) case None => 0 case Some(n) => n
  }

  /** The markers `infra_marker_labels` finds, kind by kind. */
  function AttemptLabels(labels: seq<string>): seq<string> {
    if labels == [] then []
    else (if IsAttempt(labels[0]) then [labels[0]] else []) + AttemptLabels(labels[1..])
  }

  lemma {:induction false} AttemptLabelsAre(labels: seq<string>)
    ensures forall l :: l in AttemptLabels(labels) <==> l in labels && IsAttempt(l)
  {
    if labels != [] {
      assert labels == [labels[0]] + labels[1..];
      AttemptLabelsAre(labels[1..]);
    }
  }

  function ModelLabels(labels: seq<string>): seq<string> {
    if labels == [] then []
    else (if IsModel(labels[0]) then [labels[0]] else []) + ModelLabels(labels[1..])
  }

  lemma {:induction false} ModelLabelsAre(labels: seq<string>)
    ensures forall l :: l in ModelLabels(labels) <==> l in labels && IsModel(l)
  {
    if labels != [] {
      assert labels == [labels[0]] + labels[1..];
      ModelLabelsAre(labels[1..]);
    }
  }

  // ----- Writing labels

  function Without(labels: seq<string>, gone: string): seq<string> {
    if labels == [] then []
    else if labels[0] == gone then Without(labels[1..], gone)
    else [labels[0]] + Without(labels[1..], gone)
  }

  function With(labels: seq<string>, extra: string): seq<string> {
    if extra in labels then labels else labels + [extra]
  }

  function WithoutAll(labels: seq<string>, remove: seq<string>): seq<string> {
    if remove == [] then labels else Without(WithoutAll(labels, remove[..|remove| - 1]), remove[|remove| - 1])
  }

  function WithAll(labels: seq<string>, add: seq<string>): seq<string> {
    if add == [] then labels else With(WithAll(labels, add[..|add| - 1]), add[|add| - 1])
  }

  /** The replies to a series of label writes; every write not answered for succeeds. */
  function ReplyAt(replies: seq<Reply>, i: nat): Reply {
    if i < |replies| then replies[i] else Yes
  }

  predicate AllYes(replies: seq<Reply>, n: nat) {
    forall k :: 0 <= k < n ==> ReplyAt(replies, k) == Yes
  }

  /** The labels after the removals that worked. */
  function Removals(labels: seq<string>, remove: seq<string>, replies: seq<Reply>): seq<string> {
    if remove == [] then labels
    else
      var n := |remove| - 1;
      var before := Removals(labels, remove[..n], replies);
      if ReplyAt(replies, n) == Yes then Without(before, remove[n]) else before
  }

  function Additions(labels: seq<string>, add: seq<string>, replies: seq<Reply>): seq<string> {
    if add == [] then labels
    else
      var n := |add| - 1;
      var before := Additions(labels, add[..n], replies);
      if ReplyAt(replies, n) == Yes then With(before, add[n]) else before
  }

  datatype LabelReplies = LabelReplies(removed: seq<Reply>, added: seq<Reply>)

  function Exchanged(labels: seq<string>, remove: seq<string>, add: seq<string>, r: LabelReplies): seq<string> {
    Additions(Removals(labels, remove, r.removed), add, r.added)
  }

  predicate ExchangeOk(remove: seq<string>, add: seq<string>, r: LabelReplies) {
    AllYes(r.removed, |remove|) && AllYes(r.added, |add|)
  }

  /** When every write worked, the labels are exchanged as a whole. */
  lemma {:induction false} RemovalsAreAll(labels: seq<string>, remove: seq<string>, replies: seq<Reply>)
    requires AllYes(replies, |remove|)
    ensures Removals(labels, remove, replies) == WithoutAll(labels, remove)
  {
    if remove != [] {
      RemovalsAreAll(labels, remove[..|remove| - 1], replies);
    }
  }

  lemma {:induction false} AdditionsAreAll(labels: seq<string>, add: seq<string>, replies: seq<Reply>)
    requires AllYes(replies, |add|)
    ensures Additions(labels, add, replies) == WithAll(labels, add)
  {
    if add != [] {
      AdditionsAreAll(labels, add[..|add| - 1], replies);
    }
  }

  lemma ExchangeIsAll(labels: seq<string>, remove: seq<string>, add: seq<string>, r: LabelReplies)
    requires ExchangeOk(remove, add, r)
    ensures Exchanged(labels, remove, add, r) == WithAll(WithoutAll(labels, remove), add)
  {
    RemovalsAreAll(labels, remove, r.removed);
    AdditionsAreAll(WithoutAll(labels, remove), add, r.added);
  }

  /** `replace_labels`: every label is tried; only if all writes worked does it report success. */
  method ReplaceLabels(labels: seq<string>, remove: seq<string>, add: seq<string>, r: LabelReplies)
    returns (now: seq<string>, ok: bool)
    ensures now == Exchanged(labels, remove, add, r)
    ensures ok <==> ExchangeOk(remove, add, r)
    ensures ok ==> now == WithAll(WithoutAll(labels, remove), add)
  {
    now, ok := labels, true;
    for i := 0 to |remove|
      invariant ok <==> AllYes(r.removed, i)
      invariant now == Removals(labels, remove[..i], r.removed)
    {
      assert remove[..i + 1][..i] == remove[..i];
      if ReplyAt(r.removed, i) == Yes {
        now := Without(now, remove[i]);
      } else {
        ok := false;
      }
    }
    assert remove[..|remove|] == remove;
    ghost var cleared := now;
    for i := 0 to |add|
      invariant ok <==> AllYes(r.removed, |remove|) && AllYes(r.added, i)
      invariant now == Additions(cleared, add[..i], r.added)
    {
      assert add[..i + 1][..i] == add[..i];
      if ReplyAt(r.added, i) == Yes {
        now := With(now, add[i]);
      } else {
        ok := false;
      }
    }
    assert add[..|add|] == add;
    if ok {
      ExchangeIsAll(labels, remove, add, r);
    }
  }

  lemma {:induction false} WithoutMembers(labels: seq<string>, gone: string, l: string)
    ensures l in Without(labels, gone) <==> l in labels && l != gone
  {
    if labels != [] {
      WithoutMembers(labels[1..], gone, l);
      assert labels == [labels[0]] + labels[1..];
    }
  }

  /** Every write that would have taken l off was refused. */
  predicate Refused(remove: seq<string>, replies: seq<Reply>, l: string) {
    forall i :: 0 <= i < |remove| && remove[i] == l ==> ReplyAt(replies, i) != Yes
  }

  lemma {:induction false} RemovalsKeep(labels: seq<string>, remove: seq<string>, replies: seq<Reply>, l: string)
    ensures l in Removals(labels, remove, replies) <==> l in labels && Refused(remove, replies, l)
  {
    if remove != [] {
      var n := |remove| - 1;
      RemovalsKeep(labels, remove[..n], replies, l);
      WithoutMembers(Removals(labels, remove[..n], replies), remove[n], l);
      if Refused(remove[..n], replies, l) && (remove[n] == l ==> ReplyAt(replies, n) != Yes) {
        forall i | 0 <= i < |remove| && remove[i] == l ensures ReplyAt(replies, i) != Yes {
          assert i < n ==> remove[..n][i] == l;
        }
      }
    }
  }

  /** What `record_infra_failure` removes and adds. */
  function RecordWrites(labels: seq<string>, count: int): seq<string> {
    WithAll(WithoutAll(labels, AttemptLabels(labels)), RecordAdds(labels, count))
  }

  function RecordAdds(labels: seq<string>, count: int): seq<string> {
    ModelLabels(labels) + [AttemptLabel(count)]
  }

  function AttemptLabel(count: int): string {
    ATTEMPT_PREFIX + IntText(count)
  }

  /** The labels after a recorded failure: the old counts gone, the new one last. */
  function Recorded(labels: seq<string>, count: int): seq<string> {
    NoAttempts(labels) + [AttemptLabel(count)]
  }

  function NoAttempts(labels: seq<string>): seq<string> {
    if labels == [] then []
    else if IsAttempt(labels[0]) then NoAttempts(labels[1..])
    else [labels[0]] + NoAttempts(labels[1..])
  }

  lemma {:induction false} WithoutAllOfCons(l: string, labels: seq<string>, remove: seq<string>)
    ensures WithoutAll([l] + labels, remove) ==
      if l in remove then WithoutAll(labels, remove) else [l] + WithoutAll(labels, remove)
  {
    if remove != [] {
      var n := |remove| - 1;
      assert remove == remove[..n] + [remove[n]];
      WithoutAllOfCons(l, labels, remove[..n]);
      var rest := WithoutAll(labels, remove[..n]);
      assert ([l] + rest)[1..] == rest;
    }
  }

  lemma {:induction false} WithoutNothing(remove: seq<string>)
    ensures WithoutAll([], remove) == []
  {
    if remove != [] {
      WithoutNothing(remove[..|remove| - 1]);
    }
  }

  lemma {:induction false} WithoutAttempts(labels: seq<string>, remove: seq<string>)
    requires forall l :: l in labels ==> (l in remove <==> IsAttempt(l))
    ensures WithoutAll(labels, remove) == NoAttempts(labels)
  {
    if labels == [] {
      WithoutNothing(remove);
    } else {
      assert labels == [labels[0]] + labels[1..];
      WithoutAllOfCons(labels[0], labels[1..], remove);
      WithoutAttempts(labels[1..], remove);
    }
  }

  lemma {:induction false} NoAttemptsMembers(labels: seq<string>, l: string)
    ensures l in NoAttempts(labels) <==> l in labels && !IsAttempt(l)
  {
    if labels != [] {
      NoAttemptsMembers(labels[1..], l);
      assert labels == [labels[0]] + labels[1..];
    }
  }

  lemma {:induction false} WithAllPresent(labels: seq<string>, add: seq<string>)
    requires forall l :: l in add ==> l in labels
    ensures WithAll(labels, add) == labels
  {
    if add != [] {
      WithAllPresent(labels, add[..|add| - 1]);
    }
  }

  /** The label writes amount to replacing the old counts by the new one; the model labels are already there. */
  lemma RecordWritesAre(labels: seq<string>, count: int)
    ensures RecordWrites(labels, count) == Recorded(labels, count)
  {
    var base, models, latest := NoAttempts(labels), ModelLabels(labels), AttemptLabel(count);
    AttemptLabelsAre(labels);
    ModelLabelsAre(labels);
    WithoutAttempts(labels, AttemptLabels(labels));
    forall l | l in models ensures l in base {
      PrefixesDiffer(l);
      NoAttemptsMembers(labels, l);
    }
    WithAllPresent(base, models);
    assert (models + [latest])[..|models|] == models;
    NoAttemptsMembers(labels, latest);
  }

  lemma PrefixesDiffer(l: string)
    ensures IsModel(l) ==> !IsAttempt(l)
  {
    assert MODEL_PREFIX[14] != ATTEMPT_PREFIX[14];
    if IsModel(l) {
      assert l[14] == MODEL_PREFIX[14];
    }
  }

  // ----- The countdown

  lemma {:induction false} NoCounts(labels: seq<string>)
    requires forall l :: l in labels ==> !IsAttempt(l)
    ensures HighestCount(labels) == None
  {
    if labels != [] {
      NoCounts(labels[..|labels| - 1]);
    }
  }

  lemma {:induction false} NoAttemptsKeepsModel(labels: seq<string>)
    ensures InfraModel(NoAttempts(labels)) == InfraModel(labels)
  {
    if labels != [] {
      PrefixesDiffer(labels[0]);
      NoAttemptsKeepsModel(labels[1..]);
      assert ([labels[0]] + NoAttempts(labels[1..]))[1..] == NoAttempts(labels[1..]);
    }
  }

  lemma {:induction false} ExtraKeepsModel(labels: seq<string>, extra: string)
    requires !IsModel(extra)
    ensures InfraModel(labels + [extra]) == InfraModel(labels)
  {
    if labels == [] {
      assert (labels + [extra])[1..] == [];
    } else {
      assert (labels + [extra])[1..] == labels[1..] + [extra];
      ExtraKeepsModel(labels[1..], extra);
    }
  }

  lemma AttemptLabelCounts(count: int)
    ensures CountOf(AttemptLabel(count)) == Some(count)
  {
    assert AttemptLabel(count)[|ATTEMPT_PREFIX|..] == IntText(count);
    IntTextRoundTrip(count);
  }

  lemma OnlyCount(labels: seq<string>, latest: string, count: int)
    requires HighestCount(labels) == None && CountOf(latest) == Some(count)
    ensures FailureCount(labels + [latest]) == count
  {
    assert (labels + [latest])[..|labels|] == labels;
  }

  lemma RecordedCount(labels: seq<string>, count: int)
    ensures FailureCount(Recorded(labels, count)) == count
  {
    var base := NoAttempts(labels);
    forall l | l in base ensures !IsAttempt(l) {
      NoAttemptsMembers(labels, l);
    }
    NoCounts(base);
    AttemptLabelCounts(count);
    OnlyCount(base, AttemptLabel(count), count);
  }

  /** One recorded failure: the count is the new one, the model and the blocked marker stay. */
  lemma RecordedReadsBack(labels: seq<string>, count: int)
    ensures var now := Recorded(labels, count);
      && FailureCount(now) == count
      && InfraModel(now) == InfraModel(labels)
      && (BLOCKED_LABEL in now <==> BLOCKED_LABEL in labels)
  {
    RecordedCount(labels, count);
    NoAttemptsKeepsModel(labels);
    PrefixesDiffer(AttemptLabel(count));
    ExtraKeepsModel(NoAttempts(labels), AttemptLabel(count));
    NoAttemptsMembers(labels, BLOCKED_LABEL);
  }

  /** An unhealthy tick parks the issue for a human. */
  predicate Parks(labels: seq<string>, maxFailures: int) {
    FailureCount(labels) + 1 >= maxFailures
  }

  /** A count that is used up by one more failure. */
  predicate LastCount(l: string, maxFailures: int) {
    CountOf(l).Some? && CountOf(l).value + 1 >= maxFailures
  }

  /** So one such count among the labels is enough. */
  lemma {:induction false} ParksByLabel(labels: seq<string>, maxFailures: int)
    ensures var highest := HighestCount(labels);
      highest.Some? && highest.value + 1 >= maxFailures <==> exists l :: l in labels && LastCount(l, maxFailures)
  {
    if labels != [] {
      var front, last := labels[..|labels| - 1], labels[|labels| - 1];
      ParksByLabel(front, maxFailures);
      assert last in labels && (forall l :: l in front ==> l in labels) && forall l :: l in labels ==> l in front || l == last;
    }
  }

  predicate RecordsFailure(before: seq<string>, now: seq<string>) {
    now == RecordWrites(before, FailureCount(before) + 1)
  }

  predicate Links(history: seq<seq<string>>, k: nat)
    requires 0 < k < |history|
  {
    RecordsFailure(history[k - 1], history[k])
  }

  /** An issue's labels from tick to tick while its model stays unhealthy and the label writes succeed. */
  ghost predicate Unhealthy(history: seq<seq<string>>) {
    history != [] && forall k :: 0 < k < |history| ==> Links(history, k)
  }

  lemma LinkIs(history: seq<seq<string>>, k: nat, before: seq<string>, now: seq<string>)
    requires 0 < k < |history| && history[k - 1] == before && history[k] == now
    ensures Links(history, k) <==> RecordsFailure(before, now)
  {
  }

  lemma CountRisesByOne(before: seq<string>, now: seq<string>)
    requires RecordsFailure(before, now)
    ensures FailureCount(now) == FailureCount(before) + 1 && InfraModel(now) == InfraModel(before)
    ensures BLOCKED_LABEL in now <==> BLOCKED_LABEL in before
  {
    RecordWritesAre(before, FailureCount(before) + 1);
    RecordedReadsBack(before, FailureCount(before) + 1);
  }

  lemma TickRaisesCount(history: seq<seq<string>>, k: nat)
    requires Unhealthy(history) && 0 < k < |history|
    ensures FailureCount(history[k]) == FailureCount(history[k - 1]) + 1
  {
    assert Links(history, k);
    CountRisesByOne(history[k - 1], history[k]);
  }

  /** The count rises by exactly one a tick. */
  lemma {:induction false} CountRises(history: seq<seq<string>>, k: nat)
    requires Unhealthy(history) && k < |history|
    ensures FailureCount(history[k]) == FailureCount(history[0]) + k
  {
    if k > 0 {
      CountRises(history, k - 1);
      TickRaisesCount(history, k);
    }
  }

  /** From count c on, tick k + 1 is the first to hand the issue to a human exactly when k + 1 == max(1, maxFailures - c). */
  lemma FirstParkTick(history: seq<seq<string>>, maxFailures: int, k: nat)
    requires Unhealthy(history) && k < |history|
    ensures var wait := maxFailures - FailureCount(history[0]);
      (Parks(history[k], maxFailures) && forall i :: 0 <= i < k ==> !Parks(history[i], maxFailures))
      <==> k + 1 == if wait > 1 then wait else 1
  {
    forall i | 0 <= i <= k ensures FailureCount(history[i]) == FailureCount(history[0]) + i {
      CountRises(history, i);
    }
    if k > 0 && Parks(history[k], maxFailures) && k + 1 > maxFailures - FailureCount(history[0]) {
      assert Parks(history[k - 1], maxFailures);
    }
  }
}
