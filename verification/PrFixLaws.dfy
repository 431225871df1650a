/** What a pr-fix pass keeps: every recreation lowers a potential, and FIXED is only sent for a verified PR. */
module PrFixLaws {
  import opened Outcomes
  import opened Text
  import opened Workloads
  import opened Coders
  import opened Mergeability
  import opened PrFix
  import Build

  // ----- The potential

  function Positive(n: int): nat {
    if n > 0 then n else 0
  }

  /** Tiers still above the Workload's own. */
  function TiersLeft(lane: string): nat {
    if lane == NORMAL then TIERS - 1 else 0
  }

  /** The attempt cap, read as at least one. */
  function Cap(maxAttempts: int): (cap: nat)
    ensures cap >= 1
  {
    if maxAttempts > 1 then maxAttempts else 1
  }

  /** A full attempt budget for every tier left, one attempt less for every progress step left, and the rest of this one. */
  function Weight(tiers: nat, steps: nat, maxAttempts: int, attempt: int): nat {
    Times(tiers, Cap(maxAttempts)) + Times(steps, Cap(maxAttempts) - 1) + Positive(Cap(maxAttempts) - attempt)
  }

  /** n * m, added up. */
  function Times(n: nat, m: nat): nat {
    if n == 0 then 0 else m + Times(n - 1, m)
  }

  lemma {:induction false} TimesIsProduct(n: nat, m: nat)
    ensures Times(n, m) == n * m
  {
    if n > 0 {
      TimesIsProduct(n - 1, m);
      assert n * m == (n - 1) * m + m;
    }
  }

  lemma {:induction false} TimesMonotone(fewer: nat, n: nat, m: nat)
    requires fewer < n
    ensures Times(fewer, m) + m <= Times(n, m)
  {
    if fewer < n - 1 {
      TimesMonotone(fewer, n - 1, m);
    }
  }

  function StepsLeft(progressMax: int, w: Workload): nat {
    Positive(Positive(progressMax) - ProgressOf(w))
  }

  function AttemptOrZero(w: Workload): int {
    match AttemptNote(w) case None => 0 case Some(n) => n
  }

  /** How many more times a fix Workload can be recreated. */
  function Potential(maxAttempts: int, progressMax: int, w: Workload): nat {
    Weight(TiersLeft(w.lane), StepsLeft(progressMax, w), maxAttempts, AttemptOrZero(w))
  }

  /** The potential of a Workload fresh from the queue: P * (M - 1) + T * M - 1. */
  function FreshPotential(maxAttempts: int, progressMax: int): nat {
    Positive(progressMax) * (Cap(maxAttempts) - 1) + TIERS * Cap(maxAttempts) - 1
  }

  /** The bound is below one attempt budget for every tier and progress step. */
  lemma FreshPotentialBelow(maxAttempts: int, progressMax: int)
    ensures FreshPotential(maxAttempts, progressMax) <= (Positive(progressMax) + TIERS) * Cap(maxAttempts) - 1
  {
    var p, m := Positive(progressMax), Cap(maxAttempts);
    assert p * (m - 1) == p * m - p;
    assert (p + TIERS) * m == p * m + TIERS * m;
  }

  lemma NextAttempt(tiers: nat, steps: nat, maxAttempts: int, attempt: int)
    requires attempt < maxAttempts
    ensures Weight(tiers, steps, maxAttempts, attempt + 1) < Weight(tiers, steps, maxAttempts, attempt)
  {
  }

  lemma NextStep(tiers: nat, fewer: nat, steps: nat, maxAttempts: int, attempt: int)
    requires fewer < steps && attempt < maxAttempts
    ensures Weight(tiers, fewer, maxAttempts, 1) < Weight(tiers, steps, maxAttempts, attempt)
  {
    TimesMonotone(fewer, steps, Cap(maxAttempts) - 1);
  }

  lemma NextStepExactly(tiers: nat, steps: nat, maxAttempts: int)
    requires maxAttempts > 1
    ensures Weight(tiers, steps, maxAttempts, 1) + 1 == Weight(tiers, steps + 1, maxAttempts, maxAttempts - 1)
  {
  }

  lemma NextTier(tiers: nat, steps: nat, maxAttempts: int, attempt: int)
    ensures Weight(tiers, steps, maxAttempts, 1) < Weight(tiers + 1, steps, maxAttempts, attempt)
  {
  }

  lemma NotesReadBack(w: Workload, attempt: int, signature: string, progress: int)
    ensures var r := Rebuild(w, attempt, signature);
      && AttemptNote(r) == Some(attempt) && ProgressOf(r) == ProgressOf(w)
      && AttemptNote(WithProgress(r, progress)) == Some(attempt) && ProgressOf(WithProgress(r, progress)) == progress
  {
    IntTextRoundTrip(attempt);
    IntTextRoundTrip(progress);
  }

  /** A recreation keeps the name and strictly lowers the potential. */
  predicate Falls(cfg: FixConfig, w: Workload, move: FixMove) {
    move.Remake? ==>
      && move.next.name == w.name
      && Potential(cfg.maxAttempts, cfg.progressMax, move.next) < Potential(cfg.maxAttempts, cfg.progressMax, w)
  }

  lemma SameSurfaceFalls(cfg: FixConfig, w: Workload, attempt: int, signature: string, coder: Option<string>)
    requires AttemptNote(w) == Some(attempt) && attempt < cfg.maxAttempts
    ensures Falls(cfg, w, Remake(Rebuild(w, attempt + 1, signature), coder, RetrySame))
  {
    NotesReadBack(w, attempt + 1, signature, 0);
    PotentialIs(cfg, w, attempt, ProgressOf(w));
    PotentialIs(cfg, Rebuild(w, attempt + 1, signature), attempt + 1, ProgressOf(w));
    NextAttempt(TiersLeft(w.lane), StepsLeft(cfg.progressMax, w), cfg.maxAttempts, attempt);
  }

  lemma NewSurfaceFalls(cfg: FixConfig, w: Workload, attempt: int, signature: string, coder: Option<string>)
    requires AttemptNote(w) == Some(attempt) && attempt < cfg.maxAttempts && ProgressOf(w) + 1 <= cfg.progressMax
    ensures Falls(cfg, w, Remake(WithProgress(Rebuild(w, 1, signature), ProgressOf(w) + 1), coder, RetryProgress))
  {
    var next := WithProgress(Rebuild(w, 1, signature), ProgressOf(w) + 1);
    NotesReadBack(w, 1, signature, ProgressOf(w) + 1);
    NextStep(TiersLeft(w.lane), StepsLeft(cfg.progressMax, next), StepsLeft(cfg.progressMax, w), cfg.maxAttempts, attempt);
  }

  lemma SameTierFalls(cfg: FixConfig, w: Workload, a: FixAnswers, attempt: int, load: Load)
    requires AttemptNote(w) == Some(attempt) && attempt < cfg.maxAttempts
    ensures Falls(cfg, w, SameTierMove(cfg, w, a, attempt, load))
  {
    SameSurfaceFalls(cfg, w, attempt, NewSignature(w, a), CurrentCoder(w.spec.pipeline));
    if ProgressOf(w) + 1 <= cfg.progressMax {
      NewSurfaceFalls(cfg, w, attempt, NewSignature(w, a), CurrentCoder(w.spec.pipeline));
    }
  }

  lemma NextTierFalls(cfg: FixConfig, w: Workload, load: Load)
    ensures Falls(cfg, w, NextTierMove(cfg, w, load))
  {
    var move := NextTierMove(cfg, w, load);
    if move.Remake? {
      NotesReadBack(w, 1, "", 0);
      assert AttemptNote(move.next) == Some(1) && ProgressOf(move.next) == ProgressOf(w);
      NextTier(TiersLeft(move.next.lane), StepsLeft(cfg.progressMax, w), cfg.maxAttempts, AttemptOrZero(w));
    }
  }

  /** Every recreation keeps the name and strictly lowers the potential, whatever the answers. */
  lemma RemakeFalls(cfg: FixConfig, w: Workload, a: FixAnswers, load: Load)
    ensures Falls(cfg, w, DecideFix(cfg, w, a, load))
  {
    NextTierFalls(cfg, w, load);
    if AttemptNote(w).Some? && AttemptNote(w).value < cfg.maxAttempts {
      SameTierFalls(cfg, w, a, AttemptNote(w).value, load);
    }
  }

  // ----- The bound is reached

  /** A failed fix Workload the code can still move on: known PR, counters in range, stronger coder above. */
  predicate Ripe(cfg: FixConfig, w: Workload) {
    && w.phase == Failed && Keyed(w) && NoteOr(w, Signature, "") != ""
    && AttemptNote(w).Some? && 1 <= AttemptNote(w).value <= cfg.maxAttempts
    && 0 <= ProgressOf(w) <= cfg.progressMax
    && (AttemptNote(w).value == cfg.maxAttempts > 1 ==> ProgressOf(w) == cfg.progressMax)
    && w.lane in {NORMAL, ESCALATED}
    && (w.lane == NORMAL ==> CurrentCoder(w.spec.pipeline) != Some(FixCoderFor(ESCALATED, cfg.laneAgents)))
  }

  /** An open pull request whose one check run failed. */
  function FailingView(): PrView {
    PrView(Returned(PullRequest(false, false, "clean", "sha")), Returned([CheckRun("completed", "failure")]), Raised)
  }

  /** The PR keeps failing a check and every hook succeeds. */
  function KeepsFailing(signature: string): FixAnswers {
    FixAnswers(Returned(FailingView()), No, Returned(FailingView()), Yes, Returned(signature), Gone, Stored)
  }

  lemma FailingViewFails()
    ensures Classify(FailingView()) == ChecksFailed
  {
    assert FailedRun(FailingView().runs.value[0]);
  }

  /** Every answer recreates the Workload, which Foreman then reports failed again. */
  predicate AllRemade(cfg: FixConfig, w: Workload, answers: seq<FixAnswers>)
    decreases |answers|
  {
    if answers == [] then true
    else
      var move := DecideFix(cfg, w, answers[0], map[]);
      move.Remake? && AllRemade(cfg, move.next.(phase := Failed), answers[1..])
  }

  /** The surface seen next: a new one just before the attempts run out, as long as progress is left. */
  function NextSurface(cfg: FixConfig, w: Workload): string
    requires Ripe(cfg, w)
  {
    var last := NoteOr(w, Signature, "");
    if AttemptNote(w).value == cfg.maxAttempts - 1 && ProgressOf(w) < cfg.progressMax then last + "!" else last
  }

  /** A failed fix whose checks failed is retried. */
  lemma FailedIsRetried(cfg: FixConfig, w: Workload, a: FixAnswers, attempt: int, load: Load)
    requires w.phase == Failed && AttemptNote(w) == Some(attempt) && LastProbe(w, a) == Returned(ChecksFailed)
    ensures DecideFix(cfg, w, a, load) == RetryFixMove(cfg, w, a, attempt, load)
  {
  }

  lemma RipeDecision(cfg: FixConfig, w: Workload, signature: string)
    requires Ripe(cfg, w) && cfg.slots == map[]
    ensures var a := KeepsFailing(signature); var attempt := AttemptNote(w).value;
      DecideFix(cfg, w, a, map[]) == RetryFixMove(cfg, w, a, attempt, map[])
  {
    FailingViewFails();
    FailedIsRetried(cfg, w, KeepsFailing(signature), AttemptNote(w).value, map[]);
  }

  /** next is one recreation on from w and can be moved on in its turn. */
  predicate StepsTo(cfg: FixConfig, w: Workload, next: Workload) {
    && Ripe(cfg, next.(phase := Failed))
    && Potential(cfg.maxAttempts, cfg.progressMax, next.(phase := Failed)) + 1 == Potential(cfg.maxAttempts, cfg.progressMax, w)
  }

  /** next still says which PR it fixes, on the same tier and with the same coder. */
  predicate SameAddress(w: Workload, next: Workload) {
    Keyed(next) && NoteOr(next, Signature, "") != "" && next.lane == w.lane && next.spec == w.spec
  }

  lemma RebuiltAddress(w: Workload, attempt: int, surface: string, progress: int)
    requires Keyed(w) && surface != ""
    ensures var r := Rebuild(w, attempt, surface); SameAddress(w, r) && SameAddress(w, WithProgress(r, progress))
  {
    var r := Rebuild(w, attempt, surface);
    assert r.notes == w.notes[Attempt := IntText(attempt)][Signature := surface];
  }

  lemma StaysRipe(cfg: FixConfig, w: Workload, next: Workload, attempt: int, progress: int)
    requires Ripe(cfg, w) && SameAddress(w, next) && next.phase == Failed
    requires AttemptNote(next) == Some(attempt) && ProgressOf(next) == progress
    requires 1 <= attempt <= cfg.maxAttempts && 0 <= progress <= cfg.progressMax
    requires attempt == cfg.maxAttempts > 1 ==> progress == cfg.progressMax
    ensures Ripe(cfg, next)
  {
  }

  function CounterWeight(tiers: nat, progressMax: int, maxAttempts: int, attempt: int, progress: int): nat {
    Weight(tiers, Positive(Positive(progressMax) - progress), maxAttempts, attempt)
  }

  /** The potential from the counters alone. */
  lemma {:induction false} PotentialIs(cfg: FixConfig, w: Workload, attempt: int, progress: int)
    requires AttemptNote(w) == Some(attempt) && ProgressOf(w) == progress
    ensures Potential(cfg.maxAttempts, cfg.progressMax, w)
      == CounterWeight(TiersLeft(w.lane), cfg.progressMax, cfg.maxAttempts, attempt, progress)
  {
  }

  /** The counters after a recreation on the same tier. */
  predicate NextCounters(maxAttempts: int, attempt: int, progress: int, attempt': int, progress': int) {
    || (attempt' == attempt + 1 && progress' == progress)
    || (attempt == maxAttempts - 1 && attempt' == 1 && progress' == progress + 1)
  }

  lemma WeightDrops(tiers: nat, progressMax: int, maxAttempts: int, attempt: int, progress: int, attempt': int, progress': int)
    requires 1 <= attempt < maxAttempts && 0 <= progress && progress' <= progressMax
    requires NextCounters(maxAttempts, attempt, progress, attempt', progress')
    ensures CounterWeight(tiers, progressMax, maxAttempts, attempt', progress') + 1
      == CounterWeight(tiers, progressMax, maxAttempts, attempt, progress)
  {
    if progress' == progress + 1 {
      NextStepExactly(tiers, Positive(Positive(progressMax) - progress'), maxAttempts);
    }
  }

  lemma StepsOn(cfg: FixConfig, w: Workload, next: Workload, attempt: int, progress: int)
    requires Ripe(cfg, w) && AttemptNote(w).value < cfg.maxAttempts
    requires SameAddress(w, next) && next.phase == Failed
    requires AttemptNote(next) == Some(attempt) && ProgressOf(next) == progress <= cfg.progressMax
    requires NextCounters(cfg.maxAttempts, AttemptNote(w).value, ProgressOf(w), attempt, progress)
    requires attempt == cfg.maxAttempts > 1 ==> progress == cfg.progressMax
    ensures StepsTo(cfg, w, next)
  {
    StaysRipe(cfg, w, next, attempt, progress);
    PotentialDrops(cfg, w, next, AttemptNote(w).value, ProgressOf(w), attempt, progress);
    assert next.(phase := Failed) == next;
  }

  lemma PotentialDrops(cfg: FixConfig, w: Workload, next: Workload, attempt: int, progress: int, attempt': int, progress': int)
    requires next.lane == w.lane && 1 <= attempt < cfg.maxAttempts && 0 <= progress && progress' <= cfg.progressMax
    requires AttemptNote(w) == Some(attempt) && ProgressOf(w) == progress
    requires AttemptNote(next) == Some(attempt') && ProgressOf(next) == progress'
    requires NextCounters(cfg.maxAttempts, attempt, progress, attempt', progress')
    ensures Potential(cfg.maxAttempts, cfg.progressMax, next) + 1 == Potential(cfg.maxAttempts, cfg.progressMax, w)
  {
    PotentialIs(cfg, w, attempt, progress);
    PotentialIs(cfg, next, attempt', progress');
    WeightDrops(TiersLeft(w.lane), cfg.progressMax, cfg.maxAttempts, attempt, progress, attempt', progress');
  }

  lemma RipeSameSurface(cfg: FixConfig, w: Workload)
    requires Ripe(cfg, w) && AttemptNote(w).value < cfg.maxAttempts && NextSurface(cfg, w) == NoteOr(w, Signature, "")
    ensures StepsTo(cfg, w, Rebuild(w, AttemptNote(w).value + 1, NextSurface(cfg, w)).(phase := Failed))
  {
    var attempt, surface := AttemptNote(w).value, NextSurface(cfg, w);
    NotesReadBack(w, attempt + 1, surface, 0);
    RebuiltAddress(w, attempt + 1, surface, 0);
    StepsOn(cfg, w, Rebuild(w, attempt + 1, surface).(phase := Failed), attempt + 1, ProgressOf(w));
  }

  lemma RipeNewSurface(cfg: FixConfig, w: Workload)
    requires Ripe(cfg, w) && AttemptNote(w).value < cfg.maxAttempts && NextSurface(cfg, w) != NoteOr(w, Signature, "")
    ensures StepsTo(cfg, w, WithProgress(Rebuild(w, 1, NextSurface(cfg, w)), ProgressOf(w) + 1).(phase := Failed))
  {
    var progress, surface := ProgressOf(w) + 1, NextSurface(cfg, w);
    NotesReadBack(w, 1, surface, progress);
    RebuiltAddress(w, 1, surface, progress);
    StepsOn(cfg, w, WithProgress(Rebuild(w, 1, surface), progress).(phase := Failed), 1, progress);
  }

  lemma RipeSameTier(cfg: FixConfig, w: Workload)
    requires Ripe(cfg, w) && cfg.slots == map[] && AttemptNote(w).value < cfg.maxAttempts
    ensures var move := DecideFix(cfg, w, KeepsFailing(NextSurface(cfg, w)), map[]); move.Remake? && StepsTo(cfg, w, move.next)
  {
    RipeDecision(cfg, w, NextSurface(cfg, w));
    if NextSurface(cfg, w) == NoteOr(w, Signature, "") {
      RipeSameSurface(cfg, w);
    } else {
      RipeNewSurface(cfg, w);
    }
  }

  lemma EscalatedReadsBack(w: Workload, coder: string)
    requires Keyed(w) && NoteOr(w, Signature, "") != ""
    ensures var next := OnNextTier(w, ESCALATED, coder).(phase := Failed);
      && AttemptNote(next) == Some(1) && ProgressOf(next) == ProgressOf(w)
      && Keyed(next) && NoteOr(next, Signature, "") != ""
  {
    NotesReadBack(w, 1, "", 0);
    assert OnNextTier(w, ESCALATED, coder).notes == w.notes[Attempt := IntText(1)];
  }

  lemma NextTierIsRipe(cfg: FixConfig, w: Workload)
    requires Ripe(cfg, w) && AttemptNote(w).value == cfg.maxAttempts && w.lane == NORMAL
    ensures Ripe(cfg, OnNextTier(w, ESCALATED, FixCoderFor(ESCALATED, cfg.laneAgents)).(phase := Failed))
  {
    EscalatedReadsBack(w, FixCoderFor(ESCALATED, cfg.laneAgents));
  }

  lemma RipeNextTier(cfg: FixConfig, w: Workload)
    requires Ripe(cfg, w) && AttemptNote(w).value == cfg.maxAttempts && w.lane == NORMAL
    ensures StepsTo(cfg, w, OnNextTier(w, ESCALATED, FixCoderFor(ESCALATED, cfg.laneAgents)).(phase := Failed))
  {
    var next := OnNextTier(w, ESCALATED, FixCoderFor(ESCALATED, cfg.laneAgents)).(phase := Failed);
    EscalatedReadsBack(w, FixCoderFor(ESCALATED, cfg.laneAgents));
    NextTierIsRipe(cfg, w);
    PotentialIs(cfg, w, cfg.maxAttempts, ProgressOf(w));
    PotentialIs(cfg, next, 1, ProgressOf(w));
    assert next.(phase := Failed) == next;
  }

  lemma NextTierMoveIs(cfg: FixConfig, w: Workload)
    requires cfg.slots == map[] && w.lane == NORMAL && CurrentCoder(w.spec.pipeline) != Some(FixCoderFor(ESCALATED, cfg.laneAgents))
    ensures var coder := FixCoderFor(ESCALATED, cfg.laneAgents);
      NextTierMove(cfg, w, map[]) == Remake(OnNextTier(w, ESCALATED, coder), Some(coder), Escalate)
  {
  }

  lemma RipeEscalates(cfg: FixConfig, w: Workload)
    requires Ripe(cfg, w) && cfg.slots == map[] && AttemptNote(w).value == cfg.maxAttempts && w.lane == NORMAL
    ensures var move := DecideFix(cfg, w, KeepsFailing(NextSurface(cfg, w)), map[]); move.Remake? && StepsTo(cfg, w, move.next)
  {
    RipeDecision(cfg, w, NextSurface(cfg, w));
    NextTierMoveIs(cfg, w);
    RipeNextTier(cfg, w);
  }

  lemma SpentOnTopTier(cfg: FixConfig, w: Workload)
    requires Ripe(cfg, w) && AttemptNote(w).value == cfg.maxAttempts && w.lane != NORMAL
    ensures Potential(cfg.maxAttempts, cfg.progressMax, w) == 0
  {
    TimesIsProduct(StepsLeft(cfg.progressMax, w), Cap(cfg.maxAttempts) - 1);
  }

  lemma RipeStep(cfg: FixConfig, w: Workload)
    requires Ripe(cfg, w) && cfg.slots == map[] && Potential(cfg.maxAttempts, cfg.progressMax, w) > 0
    ensures var move := DecideFix(cfg, w, KeepsFailing(NextSurface(cfg, w)), map[]); move.Remake? && StepsTo(cfg, w, move.next)
  {
    if AttemptNote(w).value == cfg.maxAttempts {
      if w.lane != NORMAL {
        SpentOnTopTier(cfg, w);
      }
      RipeEscalates(cfg, w);
    } else {
      RipeSameTier(cfg, w);
    }
  }

  /** A ripe Workload can be recreated exactly as often as its potential says, so the bound is tight. */
  lemma {:induction false} PotentialIsReached(cfg: FixConfig, w: Workload) returns (answers: seq<FixAnswers>)
    requires Ripe(cfg, w) && cfg.slots == map[]
    ensures |answers| == Potential(cfg.maxAttempts, cfg.progressMax, w) && AllRemade(cfg, w, answers)
    decreases Potential(cfg.maxAttempts, cfg.progressMax, w)
  {
    answers := [];
    if Potential(cfg.maxAttempts, cfg.progressMax, w) > 0 {
      RipeStep(cfg, w);
      var first := KeepsFailing(NextSurface(cfg, w));
      var next := DecideFix(cfg, w, first, map[]).next.(phase := Failed);
      var rest := PotentialIsReached(cfg, next);
      answers := [first] + rest;
      AllRemadeCons(cfg, w, first, next, rest);
    }
  }

  lemma AllRemadeCons(cfg: FixConfig, w: Workload, first: FixAnswers, next: Workload, rest: seq<FixAnswers>)
    requires var move := DecideFix(cfg, w, first, map[]); move.Remake? && move.next.(phase := Failed) == next
    requires AllRemade(cfg, next, rest)
    ensures AllRemade(cfg, w, [first] + rest)
  {
    assert ([first] + rest)[1..] == rest;
  }

  /** A NORMAL item drained onto a coder other than the escalated one starts out ripe. */
  lemma FreshFixIsRipe(cfg: FixConfig, item: FixItem, coder: string, prompt: string, render: Build.Render)
    requires item.repo != "" && item.pr >= 0 && item.lane == NORMAL && cfg.maxAttempts > 1 && cfg.progressMax >= 0
    requires coder != FixCoderFor(ESCALATED, cfg.laneAgents)
    ensures var w := BuildFix(item, coder, prompt, render).(phase := Failed);
      Ripe(cfg, w) && Potential(cfg.maxAttempts, cfg.progressMax, w) == FreshPotential(cfg.maxAttempts, cfg.progressMax)
  {
    var w := BuildFix(item, coder, prompt, render);
    IntTextRoundTrip(1);
    assert ParseInt("0") == Some(0) by { IntTextRoundTrip(0); }
    assert AttemptNote(w) == Some(1) && ProgressOf(w) == 0;
    assert AllDigits(IntText(item.pr));
    assert CurrentCoder(w.spec.pipeline) == Some(coder);
    TimesIsProduct(Positive(cfg.progressMax), Cap(cfg.maxAttempts) - 1);
    assert Times(1, Cap(cfg.maxAttempts)) == Cap(cfg.maxAttempts);
  }

  // ----- The end of the ladder

  /** Every issue-fix step runs coder. */
  predicate RunsOn(steps: seq<Step>, coder: string) {
    forall k :: 0 <= k < |steps| && steps[k].kind == IssueFix ==> steps[k].agent == Some(coder)
  }

  /** A fix is only ever escalated from NORMAL to ESCALATED, and to a coder it did not have. */
  predicate MovesUp(w: Workload, move: FixMove) {
    move.Remake? && move.tag == Escalate ==>
      && w.lane == NORMAL && move.next.lane == ESCALATED && AttemptNote(move.next) == Some(1)
      && move.coder.Some? && move.coder != CurrentCoder(w.spec.pipeline)
      && RunsOn(move.next.spec.pipeline, move.coder.value)
      && |move.next.spec.pipeline| == |w.spec.pipeline|
  }

  lemma NextTierMovesUp(cfg: FixConfig, w: Workload, load: Load)
    ensures MovesUp(w, NextTierMove(cfg, w, load))
  {
    NotesReadBack(w, 1, "", 0);
    assert OnNextTier(w, ESCALATED, FixCoderFor(ESCALATED, cfg.laneAgents)).notes == w.notes[Attempt := IntText(1)];
  }

  lemma EscalationMovesUp(cfg: FixConfig, w: Workload, a: FixAnswers, load: Load)
    ensures MovesUp(w, DecideFix(cfg, w, a, load))
  {
    OnlyRetriesMove(cfg, w, a, load);
    NextTierMovesUp(cfg, w, load);
  }

  /** The status of the pull request neither settles the fix nor asks to wait, and its attempts on this tier are used up. */
  predicate TierSpent(cfg: FixConfig, w: Workload, a: FixAnswers) {
    && w.phase in {Succeeded, Completed, Failed} && AttemptNote(w).Some? && AttemptNote(w).value >= cfg.maxAttempts
    && LastProbe(w, a).Returned? && LastProbe(w, a).value != ChangesRequested
    && (Keyed(w) ==> LastProbe(w, a).value !in {Merged, ClosedPr} && (LastProbe(w, a).value != MergeOk || w.phase == Failed))
  }

  lemma SpentDecides(cfg: FixConfig, w: Workload, a: FixAnswers, load: Load)
    requires TierSpent(cfg, w, a)
    ensures DecideFix(cfg, w, a, load) == NextTierMove(cfg, w, load)
  {
  }

  /** Nobody stronger is left: the top lane or an unknown one, or the coder of the next lane is the one it has. */
  predicate NobodyLeft(cfg: FixConfig, w: Workload) {
    w.lane != NORMAL || CurrentCoder(w.spec.pipeline) == Some(FixCoderFor(ESCALATED, cfg.laneAgents))
  }

  /**
   * With its tier spent a fix is given up, and BLOCKED sent if it is keyed, exactly when nobody stronger is left; otherwise it
   * waits for the next coder's slot, or is escalated to it.
   */
  lemma BlockedExactly(cfg: FixConfig, w: Workload, a: FixAnswers, objects: Objects, load: Load)
    requires TierSpent(cfg, w, a)
    ensures var move, e := DecideFix(cfg, w, a, load), EffectOn(cfg, objects, load, w, a);
      var coder := FixCoderFor(ESCALATED, cfg.laneAgents);
      && (move == BlockAndLeave <==> NobodyLeft(cfg, w))
      && (MarkSent(w.name, BLOCKED) in e.marks <==> Keyed(w) && NobodyLeft(cfg, w))
      && (!NobodyLeft(cfg, w) && cfg.slots != map[] && FreeSlots(coder, load, cfg.slots) <= 0 ==>
        move == Leave(EscalateDeferred(coder)))
      && (!NobodyLeft(cfg, w) && (cfg.slots == map[] || FreeSlots(coder, load, cfg.slots) > 0) ==>
        move.Remake? && move.tag == Escalate && move.coder == Some(coder))
  {
    SpentDecides(cfg, w, a, load);
  }

  // ----- FIXED

  predicate SettlesFixed(move: FixMove) {
    move.Settle? && move.status == FIXED
  }

  /** A retry or an escalation never settles an item. */
  lemma RetriesDoNotSettle(cfg: FixConfig, w: Workload, a: FixAnswers, attempt: int, load: Load)
    ensures !SameTierMove(cfg, w, a, attempt, load).Settle? && !NextTierMove(cfg, w, load).Settle?
  {
  }

  lemma SettlesFixedExactly(cfg: FixConfig, w: Workload, a: FixAnswers, load: Load)
    ensures var probe := LastProbe(w, a);
      SettlesFixed(DecideFix(cfg, w, a, load)) <==>
        && Keyed(w) && w.phase in {Succeeded, Completed, Failed} && AttemptNote(w).Some?
        && (probe == Returned(Merged) || (probe == Returned(MergeOk) && w.phase != Failed))
  {
    if AttemptNote(w).Some? {
      RetriesDoNotSettle(cfg, w, a, AttemptNote(w).value, load);
    }
  }

  /** GitHub's last word on the PR: it is merged, or it can be merged and the fix did not fail. */
  predicate Verified(w: Workload, a: FixAnswers) {
    var view := LastView(a);
    view.Returned? &&
    ((view.value.pull.Returned? && view.value.pull.value.merged) || (Mergeable(view.value) && w.phase != Failed))
  }

  /** FIXED is sent exactly for a finished fix of a known PR that GitHub's answers verify; a failed mark leaves the Workload alone. */
  lemma FixedOnlyWhenVerified(cfg: FixConfig, objects: Objects, load: Load, w: Workload, a: FixAnswers)
    ensures var e := EffectOn(cfg, objects, load, w, a);
      && (MarkSent(w.name, FIXED) in e.marks <==>
        Keyed(w) && w.phase in {Succeeded, Completed, Failed} && AttemptNote(w).Some? && Verified(w, a))
      && (MarkSent(w.name, FIXED) in e.marks && a.mark != Yes ==> e.objects == objects && e.load == load)
  {
    SettlesFixedExactly(cfg, w, a, load);
    MarksFixedExactly(objects, load, w, a, DecideFix(cfg, w, a, load));
    if LastView(a).Returned? {
      SettlingViews(LastView(a).value);
    }
  }

  lemma MarksFixedExactly(objects: Objects, load: Load, w: Workload, a: FixAnswers, move: FixMove)
    ensures var e := Effect(objects, load, w, a, move);
      && (MarkSent(w.name, FIXED) in e.marks <==> SettlesFixed(move) && Keyed(w))
      && (SettlesFixed(move) && a.mark != Yes ==> e.objects == objects && e.load == load)
  {
  }

  // ----- One pass over the cluster

  /** What a pass may do to an entry: keep it, recreate it with less potential, or free the name. */
  predicate Shrinks(maxAttempts: int, progressMax: int, before: Objects, after: Objects, n: string) {
    n in after ==>
      && n in before && after[n].name == n
      && (after[n] == before[n] || Potential(maxAttempts, progressMax, after[n]) < Potential(maxAttempts, progressMax, before[n]))
  }

  predicate Untouched(before: Objects, after: Objects, n: string) {
    (n in before <==> n in after) && (n in before ==> before[n] == after[n])
  }

  lemma RemakeShrinks(
    cfg: FixConfig, objects: Objects, load: Load, w: Workload, a: FixAnswers, next: Workload, coder: Option<string>, tag: FixTag)
    requires w.name in objects && objects[w.name] == w && Falls(cfg, w, Remake(next, coder, tag))
    ensures Shrinks(cfg.maxAttempts, cfg.progressMax, objects, RemakeEffect(objects, load, w, a, next, coder, tag).objects, w.name)
  {
    RemakeLeaves(objects, load, w, a, next, coder, tag);
    RemadeEntry(objects, w, next, a.delete, a.create);
  }

  lemma RemakeLeaves(
    objects: Objects, load: Load, w: Workload, a: FixAnswers, next: Workload, coder: Option<string>, tag: FixTag)
    requires next.name == w.name
    ensures RemakeEffect(objects, load, w, a, next, coder, tag).objects == AfterRemake(objects, next, a.delete, a.create)
  {
  }

  lemma EffectShrinks(cfg: FixConfig, objects: Objects, load: Load, w: Workload, a: FixAnswers, move: FixMove)
    requires w.name in objects && objects[w.name] == w && Falls(cfg, w, move)
    ensures Shrinks(cfg.maxAttempts, cfg.progressMax, objects, Effect(objects, load, w, a, move).objects, w.name)
  {
    match move
    case Remake(next, coder, tag) => RemakeShrinks(cfg, objects, load, w, a, next, coder, tag);
    case _ =>
      var after := Effect(objects, load, w, a, move).objects;
      assert w.name in after ==> after[w.name] == w;
  }

  lemma EffectFrame(objects: Objects, load: Load, w: Workload, a: FixAnswers, move: FixMove, n: string)
    requires n != w.name && (move.Remake? ==> move.next.name == w.name)
    ensures Untouched(objects, Effect(objects, load, w, a, move).objects, n)
  {
  }

  predicate DistinctListing(listed: seq<Workload>) {
    forall i, j :: 0 <= i < j < |listed| ==> listed[i].name != listed[j].name
  }

  ghost predicate Shows(listed: seq<Workload>, objects: Objects) {
    DistinctListing(listed) && forall w :: w in listed ==> w.name in objects && objects[w.name] == w
  }

  lemma {:induction false} FixPassFrame(cfg: FixConfig, listed: seq<Workload>, answers: seq<FixAnswers>, st: FixState, n: string)
    requires |answers| == |listed| && forall w :: w in listed ==> w.name != n
    ensures Untouched(st.objects, FixPass(cfg, listed, answers, st).objects, n)
  {
    if listed != [] {
      var k := |listed| - 1;
      var before := FixPass(cfg, listed[..k], answers[..k], st);
      FixPassFrame(cfg, listed[..k], answers[..k], st, n);
      RemakeFalls(cfg, listed[k], answers[k], before.load);
      EffectFrame(before.objects, before.load, listed[k], answers[k], DecideFix(cfg, listed[k], answers[k], before.load), n);
    }
  }

  /** Seen at any name, a whole pass keeps, shrinks or frees. */
  lemma {:induction false} FixPassShrinks(cfg: FixConfig, listed: seq<Workload>, answers: seq<FixAnswers>, st: FixState, n: string)
    requires |answers| == |listed| && Shows(listed, st.objects) && WellNamed(st.objects)
    ensures Shrinks(cfg.maxAttempts, cfg.progressMax, st.objects, FixPass(cfg, listed, answers, st).objects, n)
  {
    if listed != [] {
      var k := |listed| - 1;
      var before := FixPass(cfg, listed[..k], answers[..k], st);
      assert Shows(listed[..k], st.objects);
      RemakeFalls(cfg, listed[k], answers[k], before.load);
      var move := DecideFix(cfg, listed[k], answers[k], before.load);
      if n == listed[k].name {
        FixPassFrame(cfg, listed[..k], answers[..k], st, n);
        EffectShrinks(cfg, before.objects, before.load, listed[k], answers[k], move);
      } else {
        FixPassShrinks(cfg, listed[..k], answers[..k], st, n);
        EffectFrame(before.objects, before.load, listed[k], answers[k], move, n);
      }
    }
  }

  // ----- Draining

  lemma FreshFixPotential(item: FixItem, coder: string, prompt: string, render: Build.Render, maxAttempts: int, progressMax: int)
    ensures Potential(maxAttempts, progressMax, BuildFix(item, coder, prompt, render)) <= FreshPotential(maxAttempts, progressMax)
  {
    var w := BuildFix(item, coder, prompt, render);
    IntTextRoundTrip(1);
    assert ParseInt("0") == Some(0) by { IntTextRoundTrip(0); }
    assert AttemptOrZero(w) == 1 && ProgressOf(w) == 0;
    TimesIsProduct(Positive(progressMax), Cap(maxAttempts) - 1);
    assert Times(TiersLeft(w.lane), Cap(maxAttempts)) <= Cap(maxAttempts);
  }

  /** A drain leaves taken names alone and fills free ones with fresh Workloads. */
  predicate Filled(maxAttempts: int, progressMax: int, before: Objects, after: Objects, n: string) {
    && (n in before ==> n in after && after[n] == before[n])
    && (n in after && n !in before ==>
      after[n].name == n && Potential(maxAttempts, progressMax, after[n]) <= FreshPotential(maxAttempts, progressMax))
  }

  lemma CreateFills(objects: Objects, w: Workload, reply: CreateReply, maxAttempts: int, progressMax: int, n: string)
    requires Potential(maxAttempts, progressMax, w) <= FreshPotential(maxAttempts, progressMax)
    ensures Filled(maxAttempts, progressMax, objects, AfterCreate(objects, w, reply), n)
  {
  }

  lemma DrainOneFills(
    cfg: FixConfig, render: Build.Render, q: Queued, existing: set<string>, objects: Objects, load: Load,
    maxAttempts: int, progressMax: int, n: string)
    ensures Filled(maxAttempts, progressMax, objects, DrainOne(cfg, render, q, existing, objects, load).objects, n)
  {
    if q.item.Some? {
      var item := q.item.value;
      var coder := FixCoderFor(item.lane, cfg.laneAgents);
      FreshFixPotential(item, coder, q.prompt, render, maxAttempts, progressMax);
      CreateFills(objects, BuildFix(item, coder, q.prompt, render), q.create, maxAttempts, progressMax, n);
    }
  }

  lemma {:induction false} DrainFills(
    cfg: FixConfig, render: Build.Render, queue: seq<Queued>, existing: set<string>, st: DrainState,
    maxAttempts: int, progressMax: int, n: string)
    ensures Filled(maxAttempts, progressMax, st.objects, Drain(cfg, render, queue, existing, st).objects, n)
  {
    if queue != [] {
      var k := |queue| - 1;
      DrainFills(cfg, render, queue[..k], existing, st, maxAttempts, progressMax, n);
      var before := Drain(cfg, render, queue[..k], existing, st);
      DrainOneFills(cfg, render, queue[k], existing, before.objects, before.load, maxAttempts, progressMax, n);
    }
  }

  // ----- When two failures look the same

  /** Splitting at the first colon: a kind without one can be told from what follows it. */
  lemma SameKind(k: string, x: string, l: string, y: string)
    requires ':' !in k && ':' !in l && k + ("::" + x) == l + ("::" + y)
    ensures k == l && x == y
  {
    var left, right := k + ("::" + x), l + ("::" + y);
    assert left[|k|] == ':' && right[|l|] == ':';
    assert forall i :: 0 <= i < |k| ==> left[i] == k[i];
    assert forall i :: 0 <= i < |l| ==> right[i] == l[i];
    assert |k| == |l|;
    assert k == left[..|k|] && l == right[..|l|];
    assert x == left[|k| + 2..] && y == right[|l| + 2..];
  }

  /** Two failures compare equal exactly when they are of one kind and agree in what is kept of the first feedback line. */
  lemma SameFailureExactly(surface: string, feedback: seq<string>, surface': string, feedback': seq<string>)
    requires ':' !in SurfaceKind(surface) && ':' !in SurfaceKind(surface')
    ensures FailureSignature(surface, feedback) == FailureSignature(surface', feedback') <==>
      SurfaceKind(surface) == SurfaceKind(surface') && FeedbackHead(feedback) == FeedbackHead(feedback')
  {
    if FailureSignature(surface, feedback) == FailureSignature(surface', feedback') {
      SameKind(SurfaceKind(surface), FeedbackHead(feedback), SurfaceKind(surface'), FeedbackHead(feedback'));
    }
  }

  // ----- The signatures the tick hands over

  /** `failure_signature` finds no attribute on the raw queue entries that the tick passes it. */
  function RawSignature(): string {
    FailureSignature("", [])
  }

  /** 1 while the stored surface can still differ from the one the tick reports. */
  function ProgressLeft(w: Workload): nat {
    if NoteOr(w, Signature, "") in {"", RawSignature()} then 0 else 1
  }

  lemma RebuiltSurface(w: Workload, attempt: int, surface: string, progress: int)
    ensures var r := Rebuild(w, attempt, surface);
      && NoteOr(r, Signature, "") == (if surface == "" then NoteOr(w, Signature, "") else surface)
      && NoteOr(WithProgress(r, progress), Signature, "") == NoteOr(r, Signature, "")
  {
  }

  /** The step raises the progress annotation. */
  predicate Advances(w: Workload, next: Workload) {
    ProgressOf(next) > ProgressOf(w)
  }

  /** A recreation that counts as progress uses the chance up, and no other brings it back. */
  predicate ProgressesOnce(w: Workload, move: FixMove) {
    && (move.Remake? ==> (if Advances(w, move.next) then 1 else 0) + ProgressLeft(move.next) <= ProgressLeft(w))
    && (move == BlockAndDrop ==> ProgressLeft(w) == 1)
  }

  lemma RawSameTier(cfg: FixConfig, w: Workload, a: FixAnswers, attempt: int, load: Load)
    requires NewSignature(w, a) in {"", RawSignature()}
    ensures ProgressesOnce(w, SameTierMove(cfg, w, a, attempt, load))
  {
    var surface := NewSignature(w, a);
    RebuiltSurface(w, attempt + 1, surface, 0);
    RebuiltSurface(w, 1, surface, ProgressOf(w) + 1);
    NotesReadBack(w, attempt + 1, surface, 0);
    NotesReadBack(w, 1, surface, ProgressOf(w) + 1);
  }

  lemma RawNextTier(cfg: FixConfig, w: Workload, load: Load)
    ensures ProgressesOnce(w, NextTierMove(cfg, w, load))
  {
    RebuiltSurface(w, 1, "", 0);
    NotesReadBack(w, 1, "", 0);
  }

  lemma RawRetry(cfg: FixConfig, w: Workload, a: FixAnswers, attempt: int, load: Load)
    requires NewSignature(w, a) in {"", RawSignature()}
    ensures ProgressesOnce(w, RetryFixMove(cfg, w, a, attempt, load))
  {
    RawSameTier(cfg, w, a, attempt, load);
    RawNextTier(cfg, w, load);
  }

  predicate RawAnswer(a: FixAnswers) {
    a.signature.Returned? ==> a.signature.value in {"", RawSignature()}
  }

  /** So only the first retry of a lineage can count as progress: every later one meets the surface already stored. */
  lemma RawQueueProgressesOnce(cfg: FixConfig, w: Workload, a: FixAnswers, load: Load)
    requires RawAnswer(a)
    ensures ProgressesOnce(w, DecideFix(cfg, w, a, load))
  {
    if AttemptNote(w).Some? {
      RawRetry(cfg, w, a, AttemptNote(w).value, load);
    }
  }

  /**
   * And it does exactly when a keyed Workload carries a surface other than the raw one and its pull request is queued,
   * whatever really failed: what the tick reports is always the raw surface.
   */
  lemma RawProgressExactly(cfg: FixConfig, w: Workload, a: FixAnswers, load: Load)
    requires RawAnswer(a)
    ensures var move := DecideFix(cfg, w, a, load);
      && (CountsAsProgress(move) ==> RawProgress(w, a))
      && (move.Remake? && move.tag == RetrySame ==> !RawProgress(w, a))
  {
    RawProgressed(w, a);
    ProgressByTag(cfg, w, a, load);
  }

  /** What a caller can see of it beforehand. */
  predicate RawProgress(w: Workload, a: FixAnswers) {
    Keyed(w) && NoteOr(w, Signature, "") !in {"", RawSignature()} && a.signature == Returned(RawSignature())
  }

  predicate CountsAsProgress(move: FixMove) {
    move == BlockAndDrop || (move.Remake? && move.tag == RetryProgress)
  }

  lemma RawProgressed(w: Workload, a: FixAnswers)
    requires RawAnswer(a)
    ensures Progressed(w, a) <==> RawProgress(w, a)
  {
    assert RawSignature() != "";
  }

  predicate TagsProgress(w: Workload, a: FixAnswers, move: FixMove) {
    && (CountsAsProgress(move) ==> Progressed(w, a)) && (move.Remake? && move.tag == RetrySame ==> !Progressed(w, a))
  }

  lemma RetryTags(cfg: FixConfig, w: Workload, a: FixAnswers, attempt: int, load: Load)
    ensures TagsProgress(w, a, SameTierMove(cfg, w, a, attempt, load)) && TagsProgress(w, a, NextTierMove(cfg, w, load))
  {
  }

  /** Only a retry recreates a Workload or gives it up for lack of progress. */
  lemma OnlyRetriesMove(cfg: FixConfig, w: Workload, a: FixAnswers, load: Load)
    ensures var move := DecideFix(cfg, w, a, load); move.Remake? || move == BlockAndDrop ==>
      AttemptNote(w).Some? && move == RetryFixMove(cfg, w, a, AttemptNote(w).value, load)
  {
  }

  lemma ProgressByTag(cfg: FixConfig, w: Workload, a: FixAnswers, load: Load)
    ensures TagsProgress(w, a, DecideFix(cfg, w, a, load))
  {
    OnlyRetriesMove(cfg, w, a, load);
    if AttemptNote(w).Some? {
      RetryTags(cfg, w, a, AttemptNote(w).value, load);
    }
  }

  // ----- Where an entry comes from

  /** With some load the decision about w is to put next in its place. */
  ghost predicate RemadeInto(cfg: FixConfig, w: Workload, a: FixAnswers, next: Workload) {
    exists load :: DecideFix(cfg, w, a, load).Remake? && DecideFix(cfg, w, a, load).next == next
  }

  predicate Stayed(before: Objects, after: Objects, n: string) {
    n in before && n in after && before[n] == after[n]
  }

  lemma HandledOrigin(cfg: FixConfig, w: Workload, a: FixAnswers, st: FixState, n: string)
    ensures var after := HandleFix(cfg, w, a, st).objects;
      n in after ==> Stayed(st.objects, after, n) || (n == w.name && RemadeInto(cfg, w, a, after[n]))
  {
    RemakeFalls(cfg, w, a, st.load);
    EffectOrigin(st.objects, st.load, w, a, DecideFix(cfg, w, a, st.load), n);
  }

  lemma EffectOrigin(objects: Objects, load: Load, w: Workload, a: FixAnswers, move: FixMove, n: string)
    requires move.Remake? ==> move.next.name == w.name
    ensures var after := Effect(objects, load, w, a, move).objects;
      n in after ==> Stayed(objects, after, n) || (n == w.name && move.Remake? && after[n] == move.next)
  {
  }

  ghost predicate RemadeAt(cfg: FixConfig, listed: seq<Workload>, answers: seq<FixAnswers>, i: nat, n: string, next: Workload)
    requires i < |listed| == |answers|
  {
    listed[i].name == n && RemadeInto(cfg, listed[i], answers[i], next)
  }

  /** What a pass leaves under a name was there before, or was decided on for a listed Workload of that name. */
  lemma {:induction false} FixPassOrigin(
    cfg: FixConfig, listed: seq<Workload>, answers: seq<FixAnswers>, st: FixState, n: string)
    requires |answers| == |listed|
    ensures var after := FixPass(cfg, listed, answers, st).objects;
      n in after ==> Stayed(st.objects, after, n) || exists i :: 0 <= i < |listed| && RemadeAt(cfg, listed, answers, i, n, after[n])
  {
    if listed != [] {
      var k := |listed| - 1;
      var before := FixPass(cfg, listed[..k], answers[..k], st);
      var after := FixPass(cfg, listed, answers, st).objects;
      FixPassOrigin(cfg, listed[..k], answers[..k], st, n);
      HandledOrigin(cfg, listed[k], answers[k], before, n);
      if n in after {
        if !Stayed(before.objects, after, n) {
          assert RemadeAt(cfg, listed, answers, k, n, after[n]);
        } else if !Stayed(st.objects, after, n) {
          var i :| 0 <= i < k && RemadeAt(cfg, listed[..k], answers[..k], i, n, after[n]);
          assert RemadeAt(cfg, listed, answers, i, n, after[n]);
        }
      }
    }
  }
}
