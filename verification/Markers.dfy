/** What the infra labels of an issue say, and what the label writes leave, label by label. */
module Markers {
  import opened Outcomes
  import opened Text
  import opened Infra

  // ----- Reading them

  /** No model is named before position i. */
  predicate NoneBefore(labels: seq<string>, i: nat) {
    i <= |labels| && forall j :: 0 <= j < i ==> !("blocked/infra-model/" <= labels[j])
  }

  /** The first model label names the model; an empty name, like a missing label, is none that is known. */
  lemma ModelIs(labels: seq<string>, i: nat, model: string)
    requires NoneBefore(labels, i)
    ensures i < |labels| && labels[i] == "blocked/infra-model/" + model ==> InfraModel(labels) == if model == "" then "unknown" else model
    ensures i == |labels| ==> InfraModel(labels) == "unknown"
  {
    if i == |labels| {
      NoModelIsUnknown(labels);
    } else if labels[i] == "blocked/infra-model/" + model {
      FirstModelDecides(labels, i);
      assert labels[i][|MODEL_PREFIX|..] == model;
    }
  }

  /** The label carries the count n. */
  predicate Counts(l: string, n: int) {
    "blocked/infra-attempt/" <= l && ParseInt(l[|"blocked/infra-attempt/"|..]) == Some(n)
  }

  predicate SomeCounts(labels: seq<string>, n: int) {
    exists i :: 0 <= i < |labels| && Counts(labels[i], n)
  }

  lemma {:induction false} HighestIs(labels: seq<string>)
    ensures HighestCount(labels).Some? ==> SomeCounts(labels, HighestCount(labels).value)
    ensures forall n :: SomeCounts(labels, n) ==> HighestCount(labels).Some? && n <= HighestCount(labels).value
  {
    if labels != [] {
      var k := |labels| - 1;
      var front := labels[..k];
      HighestIs(front);
      assert forall n :: Counts(labels[k], n) <==> CountOf(labels[k]) == Some(n);
      assert forall n :: SomeCounts(labels, n) <==> SomeCounts(front, n) || Counts(labels[k], n) by {
        forall n | SomeCounts(front, n) ensures SomeCounts(labels, n) {
          var i :| 0 <= i < |front| && Counts(front[i], n);
          assert labels[i] == front[i];
        }
        forall n | SomeCounts(labels, n) && !Counts(labels[k], n) ensures SomeCounts(front, n) {
          var i :| 0 <= i < |labels| && Counts(labels[i], n);
          assert labels[i] == front[i];
        }
      }
    }
  }

  /** The failure count is the highest one any label carries, and 0 when none carries one. */
  lemma FailuresAre(labels: seq<string>, n: int)
    ensures SomeCounts(labels, n) && (forall m :: SomeCounts(labels, m) ==> m <= n) ==> FailureCount(labels) == n
    ensures (forall m :: !SomeCounts(labels, m)) ==> FailureCount(labels) == 0
  {
    HighestIs(labels);
  }

  // ----- Writing them

  /** The i-th write worked: it was answered with a yes, or not answered for at all. */
  predicate Worked(replies: seq<Reply>, i: nat) {
    i >= |replies| || replies[i] == Yes
  }

  predicate Written(writes: seq<string>, replies: seq<Reply>, l: string) {
    exists i: nat :: i < |writes| && writes[i] == l && Worked(replies, i)
  }

  lemma WrittenSnoc(writes: seq<string>, replies: seq<Reply>, l: string)
    requires writes != []
    ensures var n := |writes| - 1;
      Written(writes, replies, l) <==> Written(writes[..n], replies, l) || (writes[n] == l && Worked(replies, n))
  {
    var n := |writes| - 1;
    if Written(writes[..n], replies, l) {
      var i: nat :| i < n && writes[..n][i] == l && Worked(replies, i);
      assert writes[i] == l;
    }
    if Written(writes, replies, l) {
      var i: nat :| i < |writes| && writes[i] == l && Worked(replies, i);
      assert i < n ==> writes[..n][i] == l;
    }
  }

  lemma {:induction false} RemovedAre(labels: seq<string>, remove: seq<string>, replies: seq<Reply>, l: string)
    ensures l in Removals(labels, remove, replies) <==> l in labels && !Written(remove, replies, l)
  {
    if remove != [] {
      var n := |remove| - 1;
      RemovedAre(labels, remove[..n], replies, l);
      WithoutMembers(Removals(labels, remove[..n], replies), remove[n], l);
      WrittenSnoc(remove, replies, l);
    }
  }

  lemma {:induction false} AddedAre(labels: seq<string>, add: seq<string>, replies: seq<Reply>, l: string)
    ensures l in Additions(labels, add, replies) <==> l in labels || Written(add, replies, l)
  {
    if add != [] {
      var n := |add| - 1;
      AddedAre(labels, add[..n], replies, l);
      WrittenSnoc(add, replies, l);
    }
  }

  /** Label by label: what an exchange leaves, whichever of its writes worked. */
  lemma ExchangedAre(labels: seq<string>, remove: seq<string>, add: seq<string>, r: LabelReplies, l: string)
    ensures l in Exchanged(labels, remove, add, r) <==> Written(add, r.added, l) || (l in labels && !Written(remove, r.removed, l))
  {
    RemovedAre(labels, remove, r.removed, l);
    AddedAre(Removals(labels, remove, r.removed), add, r.added, l);
  }
}
