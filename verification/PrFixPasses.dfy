/** The two pr-fix passes as the bridge runs them, over one cluster and one shared coder load. */
module PrFixPasses {
  import opened Outcomes
  import opened Text
  import opened Workloads
  import opened Coders
  import opened Mergeability
  import opened PrFix
  import Build

  method DeleteFix(w: Workload, a: FixAnswers, tag: FixTag, cluster: Cluster) returns (done: FixTag)
    modifies cluster
    ensures FixEffect(cluster.objects, map[], [], Some(done)) == DeleteEffect(old(cluster.objects), map[], w, a, [], tag)
  {
    var raised := cluster.Delete(w.name, a.delete);
    done := if raised then FixError else tag;
  }

  method RemakeFix(
    w: Workload, a: FixAnswers, next: Workload, coder: Option<string>, tag: FixTag, cluster: Cluster, pool: CoderLoad)
    returns (done: FixTag)
    modifies cluster, pool
    ensures FixEffect(cluster.objects, pool.load, [], Some(done))
      == RemakeEffect(old(cluster.objects), old(pool.load), w, a, next, coder, tag)
  {
    var deleteRaised := cluster.Delete(w.name, a.delete);
    if deleteRaised {
      return FixError;
    }
    var createRaised := cluster.Create(next, a.create);
    if createRaised {
      return FixError;
    }
    if coder.Some? {
      pool.Draw(coder.value);
    }
    return tag;
  }

  /** `mark_pr_fix`, called only for a Workload whose PR is known. */
  method SendMark(w: Workload, status: MarkStatus) returns (sent: seq<MarkSent>)
    ensures sent == MarkOf(w, status)
  {
    sent := [];
    if Keyed(w) {
      sent := [MarkSent(w.name, status)];
    }
  }

  /** Another attempt on the same tier: a new failure surface starts the count again, the same one raises it. */
  method RetrySameTier(cfg: FixConfig, w: Workload, a: FixAnswers, attempt: int, cluster: Cluster, pool: CoderLoad)
    returns (tag: FixTag, marks: seq<MarkSent>)
    modifies cluster, pool
    ensures FixEffect(cluster.objects, pool.load, marks, Some(tag))
      == Effect(old(cluster.objects), old(pool.load), w, a, SameTierMove(cfg, w, a, attempt, old(pool.load)))
  {
    marks := [];
    var coder := CurrentCoder(w.spec.pipeline);
    if Full(coder, cfg, pool.load) {
      return RetryDeferred(coder.value), marks;
    }
    var before, now := NoteOr(w, Signature, ""), NewSignature(w, a);
    if before != "" && now != "" && before != now {
      var progress := ProgressOf(w) + 1;
      if progress > cfg.progressMax {
        marks := SendMark(w, BLOCKED);
        if Keyed(w) && a.mark == Raises {
          return FixError, marks;
        }
        tag := DeleteFix(w, a, ProgressGiveup, cluster);
      } else {
        var next := WithProgress(Rebuild(w, 1, now), progress);
        tag := RemakeFix(w, a, next, coder, RetryProgress, cluster, pool);
      }
    } else {
      tag := RemakeFix(w, a, Rebuild(w, attempt + 1, now), coder, RetrySame, cluster, pool);
    }
  }

  /** The manifest for the next tier; the coder is swapped on the steps in place. */
  method EscalateManifest(w: Workload, lane: string, coder: string) returns (next: Workload)
    ensures next == OnNextTier(w, lane, coder)
  {
    next := Rebuild(w, 1, "").(lane := lane);
    var pipeline := w.spec.pipeline;
    var steps := new Step[|pipeline|](i requires 0 <= i < |pipeline| => pipeline[i]);
    assert steps[..] == pipeline;
    SwapCoder(steps, coder);
    next := next.(spec := w.spec.(pipeline := steps[..]));
  }

  method RetryNextTier(cfg: FixConfig, w: Workload, a: FixAnswers, cluster: Cluster, pool: CoderLoad)
    returns (tag: FixTag, marks: seq<MarkSent>)
    modifies cluster, pool
    ensures FixEffect(cluster.objects, pool.load, marks, Some(tag))
      == Effect(old(cluster.objects), old(pool.load), w, a, NextTierMove(cfg, w, old(pool.load)))
  {
    marks := [];
    var lane := NextLane(w.lane);
    if lane.Some? {
      var coder := FixCoderFor(lane.value, cfg.laneAgents);
      if Some(coder) != CurrentCoder(w.spec.pipeline) {
        if Full(Some(coder), cfg, pool.load) {
          return EscalateDeferred(coder), marks;
        }
        var next := EscalateManifest(w, lane.value, coder);
        tag := RemakeFix(w, a, next, Some(coder), Escalate, cluster, pool);
        return;
      }
    }
    marks := SendMark(w, BLOCKED);
    tag := if Keyed(w) && a.mark == Raises then FixError else Giveup;
  }

  /** Another attempt while the tier has one left, the next tier otherwise. */
  method RetryOrEscalate(cfg: FixConfig, w: Workload, a: FixAnswers, attempt: int, cluster: Cluster, pool: CoderLoad)
    returns (tag: FixTag, marks: seq<MarkSent>)
    modifies cluster, pool
    ensures FixEffect(cluster.objects, pool.load, marks, Some(tag)) ==
      Effect(old(cluster.objects), old(pool.load), w, a, RetryFixMove(cfg, w, a, attempt, old(pool.load)))
  {
    if attempt < cfg.maxAttempts {
      tag, marks := RetrySameTier(cfg, w, a, attempt, cluster, pool);
    } else {
      tag, marks := RetryNextTier(cfg, w, a, cluster, pool);
    }
  }

  method SettleFix(w: Workload, a: FixAnswers, status: MarkStatus, done: FixTag, failed: FixTag, cluster: Cluster)
    returns (tag: FixTag, marks: seq<MarkSent>)
    modifies cluster
    ensures FixEffect(cluster.objects, map[], marks, Some(tag))
      == Effect(old(cluster.objects), map[], w, a, Settle(status, done, failed))
  {
    marks := SendMark(w, status);
    if a.mark == Yes {
      tag := DeleteFix(w, a, done, cluster);
    } else if a.mark == No {
      tag := failed;
    } else {
      tag := FixError;
    }
  }

  /** `pr_is_mergeable`: reads the pull request's view, unless the lookup itself raises. */
  method Probe(view: Try<PrView>) returns (status: Try<MergeStatus>)
    ensures status == StatusOf(view)
  {
    if view.Raised? {
      return Raised;
    }
    var merge := CheckPrMergeable(view.value);
    status := Returned(merge);
  }

  method ProbeMerge(w: Workload, a: FixAnswers) returns (status: Try<MergeStatus>)
    ensures status == LastProbe(w, a)
  {
    status := Returned(MergeOk);
    if Keyed(w) {
      status := Probe(a.probe);
      if status.Returned? && status.value in {Dirty, Conflicting} {
        if a.update == Yes {
          status := Probe(a.reprobe);
        }
      }
    }
  }

  /** What follows from the merge status of a finished fix with a readable attempt number. */
  method Conclude(
    cfg: FixConfig, w: Workload, a: FixAnswers, attempt: int, status: MergeStatus, cluster: Cluster, pool: CoderLoad)
    returns (done: FixTag, marks: seq<MarkSent>)
    requires w.phase in {Succeeded, Completed, Failed} && AttemptNote(w) == Some(attempt) && LastProbe(w, a) == Returned(status)
    modifies cluster, pool
    ensures FixEffect(cluster.objects, pool.load, marks, Some(done))
      == EffectOn(cfg, old(cluster.objects), old(pool.load), w, a)
  {
    marks := [];
    if Keyed(w) && status == Merged {
      done, marks := SettleFix(w, a, FIXED, PrMerged, PrMarkFailed, cluster);
    } else if Keyed(w) && status == ClosedPr {
      done, marks := SettleFix(w, a, STALE, PrClosed, PrMarkFailed, cluster);
    } else if w.phase != Failed && status == MergeOk && Keyed(w) {
      done, marks := SettleFix(w, a, FIXED, Fixed, MarkFailed, cluster);
    } else if status == ChangesRequested {
      done := DeleteFix(w, a, ChangesWanted, cluster);
    } else if status == BlockedPr && attempt < cfg.maxAttempts {
      done := WaitBlocked;
    } else if status == ChecksPending && attempt < cfg.maxAttempts {
      done := WaitChecks;
    } else {
      done, marks := RetryOrEscalate(cfg, w, a, attempt, cluster, pool);
    }
  }

  /** Handles one fix Workload; no tag means it is still running. */
  method ReconcileFix(cfg: FixConfig, w: Workload, a: FixAnswers, cluster: Cluster, pool: CoderLoad)
    returns (tag: Option<FixTag>, marks: seq<MarkSent>)
    modifies cluster, pool
    ensures FixEffect(cluster.objects, pool.load, marks, tag)
      == EffectOn(cfg, old(cluster.objects), old(pool.load), w, a)
  {
    marks := [];
    if w.phase !in {Succeeded, Completed, Failed} {
      return None, marks;
    }
    var attempt := AttemptNote(w);
    var probe := ProbeMerge(w, a);
    if attempt.None? || probe.Raised? {
      return Some(FixError), marks;
    }
    var done;
    done, marks := Conclude(cfg, w, a, attempt.value, probe.value, cluster, pool);
    tag := Some(done);
  }

  /** `reconcile_pr_fixes`. */
  method ReconcilePrFixes(
    cfg: FixConfig, listed: seq<Workload>, answers: seq<FixAnswers>, cluster: Cluster, pool: CoderLoad)
    returns (marks: seq<MarkSent>, results: seq<FixOutcome>)
    requires |answers| == |listed|
    modifies cluster, pool
    ensures FixState(cluster.objects, pool.load, marks, results)
      == FixPass(cfg, listed, answers, FixState(old(cluster.objects), old(pool.load), [], []))
  {
    ghost var start := FixState(cluster.objects, pool.load, [], []);
    marks, results := [], [];
    for i := 0 to |listed|
      invariant FixState(cluster.objects, pool.load, marks, results) == FixPass(cfg, listed[..i], answers[..i], start)
    {
      var tag, sent := ReconcileFix(cfg, listed[i], answers[i], cluster, pool);
      assert listed[..i + 1][..i] == listed[..i] && answers[..i + 1][..i] == answers[..i];
      marks := marks + sent;
      if tag.Some? {
        results := results + [FixOutcome(listed[i].name, tag.value)];
      }
    }
    assert listed[..|listed|] == listed && answers[..|listed|] == answers;
  }

  method DrainItem(cfg: FixConfig, render: Build.Render, q: Queued, existing: set<string>, load: Load, cluster: Cluster)
    returns (tag: DrainTag, after: Load)
    modifies cluster
    ensures DrainEffect(cluster.objects, after, tag) == DrainOne(cfg, render, q, existing, old(cluster.objects), load)
  {
    after := load;
    if q.item.None? {
      return Unparseable, after;
    }
    var item := q.item.value;
    if item.branch == "" {
      return NoBranch, after;
    }
    if FixName(item.repo, item.pr) in existing {
      return InFlight, after;
    }
    var coder := FixCoderFor(item.lane, cfg.laneAgents);
    if Full(Some(coder), cfg, load) {
      return CoderBusy(coder), after;
    }
    var raised := cluster.Create(BuildFix(item, coder, q.prompt, render), q.create);
    if raised {
      return DrainError, after;
    }
    after := Charge(load, coder);
    tag := Created;
  }

  /** `drain_pr_fixes`; it counts on its own copy of the load. */
  method DrainPrFixes(
    cfg: FixConfig, render: Build.Render, queue: seq<Queued>, existing: set<string>, load: Load, cluster: Cluster)
    returns (results: seq<DrainTag>, after: Load)
    modifies cluster
    ensures DrainState(cluster.objects, after, results)
      == Drain(cfg, render, queue, existing, DrainState(old(cluster.objects), load, []))
  {
    ghost var start := DrainState(cluster.objects, load, []);
    results, after := [], load;
    for i := 0 to |queue|
      invariant DrainState(cluster.objects, after, results) == Drain(cfg, render, queue[..i], existing, start)
    {
      var tag;
      tag, after := DrainItem(cfg, render, queue[i], existing, after, cluster);
      assert queue[..i + 1][..i] == queue[..i];
      results := results + [tag];
    }
    assert queue[..|queue|] == queue;
  }
}
