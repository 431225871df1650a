/** Which issue a turn of the claim loop takes, told by the queue and by Dispatch's answers, and what it does with it. */
module Turns {
  import opened Outcomes
  import opened Slug
  import opened Workloads
  import opened Coders
  import opened Build
  import opened Claims

  // ----- Which issue

  /** Nobody's robot, ready, of this lane or of none, and open to anyone or meant for this agent. */
  predicate Candidate(q: QueueItem, lane: string) {
    q.ready && !q.bot && (q.lane == "" || q.lane == lane) && (q.claimable || q.agentMatch)
  }

  /** How many claims are posted for the first n items. */
  function AskedFor(lane: string, queue: seq<QueueItem>, n: nat): nat
    requires n <= |queue|
  {
    if n == 0 then 0 else AskedFor(lane, queue, n - 1) + (if Candidate(queue[n - 1], lane) then 1 else 0)
  }

  /** The claim on the i-th item is one Dispatch grants, and the item can be read back. */
  predicate GoesThrough(lane: string, queue: seq<QueueItem>, g: Granting, r: Register, i: nat)
  {
    && i < |queue| && Candidate(queue[i], lane) && queue[i].repo.Some? && queue[i].number.Some?
    && r.asked + AskedFor(lane, queue, i) !in g.refused
    && (g.idempotent || IssueKey(queue[i].id, queue[i].repo, queue[i].number) !in r.keys)
  }

  /** It is the first such item. */
  predicate GoesFirst(lane: string, queue: seq<QueueItem>, g: Granting, r: Register, i: nat) {
    GoesThrough(lane, queue, g, r, i) && forall j: nat :: j < i ==> !GoesThrough(lane, queue, g, r, j)
  }

  predicate IsItem(q: QueueItem, lane: string, item: ClaimedItem) {
    && q.repo == Some(item.repo) && q.number == Some(item.issueNumber) && q.title == item.intent && q.id == item.issueId
    && item.lane == lane
  }

  /** It is the i-th that is claimed, and Dispatch was asked for it and every candidate before it. */
  predicate TakesAt(lane: string, queue: seq<QueueItem>, g: Granting, r: Register, c: Claim, i: nat) {
    && GoesFirst(lane, queue, g, r, i)
    && c.item.Some? && IsItem(queue[i], lane, c.item.value) && c.register.asked == r.asked + AskedFor(lane, queue, i + 1)
  }

  lemma {:induction false} AskedInRest(lane: string, queue: seq<QueueItem>, n: nat)
    requires queue != [] && n < |queue|
    ensures AskedFor(lane, queue, n + 1) == (if Candidate(queue[0], lane) then 1 else 0) + AskedFor(lane, queue[1..], n)
  {
    if n > 0 {
      AskedInRest(lane, queue, n - 1);
    }
  }

  /** What the claim on the first item, granted or not, leaves for the rest when it does not end the search. */
  function AfterFirst(q: QueueItem, lane: string, g: Granting, r: Register): Register {
    if Candidate(q, lane) then Ask(q, g, r) else r
  }

  lemma GoesInRest(lane: string, queue: seq<QueueItem>, g: Granting, r: Register, i: nat)
    requires queue != [] && !GoesThrough(lane, queue, g, r, 0)
    ensures GoesThrough(lane, queue[1..], g, AfterFirst(queue[0], lane, g, r), i) <==> GoesThrough(lane, queue, g, r, i + 1)
  {
    if i + 1 < |queue| {
      AskedInRest(lane, queue, i);
      assert queue[1..][i] == queue[i + 1];
    }
  }

  lemma FirstInRest(lane: string, queue: seq<QueueItem>, g: Granting, r: Register, i: nat)
    requires queue != [] && !GoesThrough(lane, queue, g, r, 0)
    ensures GoesFirst(lane, queue[1..], g, AfterFirst(queue[0], lane, g, r), i) <==> GoesFirst(lane, queue, g, r, i + 1)
  {
    forall j: nat
      ensures GoesThrough(lane, queue[1..], g, AfterFirst(queue[0], lane, g, r), j) <==> GoesThrough(lane, queue, g, r, j + 1)
    {
      GoesInRest(lane, queue, g, r, j);
    }
    if GoesFirst(lane, queue[1..], g, AfterFirst(queue[0], lane, g, r), i) {
      forall j: nat | j < i + 1 ensures !GoesThrough(lane, queue, g, r, j) {
        if j > 0 { assert !GoesThrough(lane, queue[1..], g, AfterFirst(queue[0], lane, g, r), j - 1); }
      }
    }
  }

  lemma NoneInRest(lane: string, queue: seq<QueueItem>, g: Granting, r: Register)
    requires queue != [] && !GoesThrough(lane, queue, g, r, 0)
    requires forall i: nat :: !GoesThrough(lane, queue[1..], g, AfterFirst(queue[0], lane, g, r), i)
    ensures forall i: nat :: !GoesThrough(lane, queue, g, r, i)
    ensures AskedFor(lane, queue, |queue|) == (if Candidate(queue[0], lane) then 1 else 0) + AskedFor(lane, queue[1..], |queue| - 1)
  {
    AskedInRest(lane, queue, |queue| - 1);
    forall i: nat ensures !GoesThrough(lane, queue, g, r, i) {
      if i > 0 { GoesInRest(lane, queue, g, r, i - 1); }
    }
  }

  lemma FirstTakes(lane: string, queue: seq<QueueItem>, g: Granting, r: Register)
    requires GoesThrough(lane, queue, g, r, 0)
    ensures TakesAt(lane, queue, g, r, FirstClaim(lane, queue, g, r), 0)
  {
  }

  lemma FirstLeaves(lane: string, queue: seq<QueueItem>, g: Granting, r: Register)
    requires queue != [] && !GoesThrough(lane, queue, g, r, 0)
    ensures FirstClaim(lane, queue, g, r) == FirstClaim(lane, queue[1..], g, AfterFirst(queue[0], lane, g, r))
  {
  }

  lemma TakesFurtherOn(lane: string, queue: seq<QueueItem>, g: Granting, r: Register, c: Claim, i: nat)
    requires queue != [] && !GoesThrough(lane, queue, g, r, 0)
    requires TakesAt(lane, queue[1..], g, AfterFirst(queue[0], lane, g, r), c, i)
    ensures TakesAt(lane, queue, g, r, c, i + 1)
  {
    FirstInRest(lane, queue, g, r, i);
    AskedInRest(lane, queue, i + 1);
  }

  /** The claim goes to the first item of the queue that goes through, whatever Dispatch refuses, and to nobody without one. */
  lemma {:induction false} ClaimedExactly(lane: string, queue: seq<QueueItem>, g: Granting, r: Register)
    ensures var c := FirstClaim(lane, queue, g, r);
      if c.item.None? then
        c.register.asked == r.asked + AskedFor(lane, queue, |queue|) && forall i: nat :: !GoesThrough(lane, queue, g, r, i)
      else exists i: nat :: TakesAt(lane, queue, g, r, c, i)
  {
    if queue != [] {
      var c, r' := FirstClaim(lane, queue, g, r), AfterFirst(queue[0], lane, g, r);
      if GoesThrough(lane, queue, g, r, 0) {
        FirstTakes(lane, queue, g, r);
      } else {
        FirstLeaves(lane, queue, g, r);
        ClaimedExactly(lane, queue[1..], g, r');
        if c.item.None? {
          NoneInRest(lane, queue, g, r);
        } else {
          var i: nat :| TakesAt(lane, queue[1..], g, r', c, i);
          TakesFurtherOn(lane, queue, g, r, c, i);
        }
      }
    }
  }

  // ----- What is done with it

  /** The cap is reached. */
  predicate Full(cfg: ClaimConfig, inProgress: int) {
    cfg.maxInProgress != 0 && cfg.maxInProgress <= inProgress
  }

  /** A turn claims exactly when the cap is not reached, the lane's coders are not all busy and some claim goes through. */
  lemma TurnClaims(cfg: ClaimConfig, world: ClaimWorld, lane: string, queue: seq<QueueItem>, st: ClaimState)
    ensures GoesOn(cfg, world, lane, queue, st) <==>
      !Full(cfg, st.inProgress) && !LaneSaturated(cfg, lane, st.load)
      && exists i: nat :: GoesFirst(lane, queue, world.granting, st.register, i)
  {
    ClaimedExactly(lane, queue, world.granting, st.register);
  }

  /** A turn that does not reports why, unless the lane has something to show already. */
  lemma TurnReports(cfg: ClaimConfig, world: ClaimWorld, lane: string, queue: seq<QueueItem>, st: ClaimState, here: nat)
    requires !GoesOn(cfg, world, lane, queue, st)
    ensures var after := Stopped(cfg, world, lane, queue, st, here);
      var why := if Full(cfg, st.inProgress) then Capped(lane)
        else if LaneSaturated(cfg, lane, st.load) then CodersBusy(lane) else Empty(lane);
      && after.results == (if here > 0 then st.results else st.results + [why])
      && after.inProgress == st.inProgress
      && (why != Empty(lane) ==> after.register == st.register)
  {
  }

  /** It is rendered at attempt 1 of both budgets with nothing to revise, and the steps are left to Foreman. */
  lemma ClaimManifestIs(cfg: ClaimConfig, item: ClaimedItem, coder: string)
    ensures var w, found := ClaimManifest(cfg, item, coder), Lookup(cfg.revisionAgents, cfg.routing.roles, item.lane);
      && w.name == WorkloadName(item.repo, item.issueNumber) && w.createdBy == IssueBridge && w.spec.reviseFromBranch == None
      && w.spec.pipeline == [] && LeftToForeman(w.spec, coder, if found.Some? then found.value else "", cfg.render)
      && ItemFromWorkload(w).issueId == item.issueId && AttemptOf(w) == 1 && InfraAttemptOf(w) == 1
  {
    var revision := RevisionCoder(item.lane, cfg.revisionAgents, cfg.routing.roles);
    BuiltWorkloadWorks(item, 1, 1, coder, "", revision, false, cfg.render);
    BuiltWorkloadReadsBack(item, 1, 1, coder, "", revision, "", cfg.render);
  }

  /**
   * A claim that goes through is rendered for a coder picked by the load as it stands; it is counted, charged and reported
   * exactly when its create was stored, and else nothing more is claimed.
   */
  lemma ClaimCreates(cfg: ClaimConfig, world: ClaimWorld, lane: string, queue: seq<QueueItem>, st: ClaimState, i: nat)
    requires !st.raised && GoesOn(cfg, world, lane, queue, st) && GoesFirst(lane, queue, world.granting, st.register, i)
    ensures var after, q := Next(cfg, world, lane, queue, st), queue[i];
      var item := ClaimedItem(q.repo.value, q.number.value, q.title, lane, q.id);
      var language := LanguageOf(item.repo, cfg.render.gateProfiles);
      var reply := if st.creates < |world.creates| then world.creates[st.creates] else Stored;
      var name := WorkloadName(item.repo, item.issueNumber);
      var coder := CoderFor(lane, language, item.repo, item.issueNumber, cfg.routing, st.load, cfg.slots, cfg.fixFirst);
      && after.creates == st.creates + 1
      && (after.raised <==> reply != Stored)
      && after.objects == (if name in st.objects || reply == RaisedAbsent then st.objects
        else st.objects[name := ClaimManifest(cfg, item, coder)])
      && after.inProgress == st.inProgress + (if reply == Stored then 1 else 0)
      && after.load == (if reply == Stored then Charge(st.load, coder) else st.load)
      && after.results == st.results + (if reply == Stored then [CreatedFor(lane, item, coder)] else [])
  {
    ClaimedExactly(lane, queue, world.granting, st.register);
    var claim := FirstClaim(lane, queue, world.granting, st.register);
    var j: nat :| TakesAt(lane, queue, world.granting, st.register, claim, j);
    assert i == j;
  }

  /** Only an item with a number is ever granted. */
  lemma {:induction false} GrantsNumbered(lane: string, queue: seq<QueueItem>, g: Granting, r: Register)
    ensures forall k :: k in FirstClaim(lane, queue, g, r).register.keys ==> k in r.keys || k.number.Some?
  {
    if queue != [] {
      GrantsNumbered(lane, queue[1..], g, AfterFirst(queue[0], lane, g, r));
      GrantsNumbered(lane, queue[1..], g, r);
    }
  }

  // ----- What a lane reports

  /** Since before, only created Workloads were reported. */
  predicate OnlyCreated(before: seq<ClaimTag>, after: seq<ClaimTag>) {
    before <= after && forall k :: |before| <= k < |after| ==> after[k].CreatedFor?
  }

  /** Since before, nothing was created, and one reason for that was reported. */
  predicate OnlyReason(before: seq<ClaimTag>, after: seq<ClaimTag>) {
    |after| == |before| + 1 && before <= after && !after[|before|].CreatedFor?
  }

  lemma OnlyCreatedOn(before: seq<ClaimTag>, between: seq<ClaimTag>, after: seq<ClaimTag>)
    requires OnlyCreated(before, between) && OnlyCreated(between, after)
    ensures OnlyCreated(before, after)
  {
  }

  lemma NextReports(cfg: ClaimConfig, world: ClaimWorld, lane: string, queue: seq<QueueItem>, st: ClaimState)
    requires !st.raised && GoesOn(cfg, world, lane, queue, st)
    ensures var next := Next(cfg, world, lane, queue, st);
      OnlyCreated(st.results, next.results) && next.creates == st.creates + 1
  {
  }

  predicate LaneReported(here: nat, before: ClaimState, after: ClaimState) {
    && after.creates >= before.creates
    && (here > 0 || after.creates > before.creates ==> OnlyCreated(before.results, after.results))
    && (here == 0 && after.creates == before.creates ==> OnlyReason(before.results, after.results))
  }

  lemma StopIsReported(cfg: ClaimConfig, world: ClaimWorld, lane: string, queue: seq<QueueItem>, st: ClaimState, here: nat)
    requires !GoesOn(cfg, world, lane, queue, st)
    ensures LaneReported(here, st, Stopped(cfg, world, lane, queue, st, here))
  {
    StopKeepsWorld(cfg, world, lane, queue, st, here);
    TurnReports(cfg, world, lane, queue, st, here);
  }

  lemma ReportedOn(here: nat, before: ClaimState, between: ClaimState, after: ClaimState)
    requires OnlyCreated(before.results, between.results) && between.creates == before.creates + 1
    requires after == between || LaneReported(here + 1, between, after)
    ensures LaneReported(here, before, after)
  {
    if after != between {
      OnlyCreatedOn(before.results, between.results, after.results);
    }
  }

  /** A lane on which something was created reports that alone; one on which nothing was reports why, once. */
  lemma {:induction false} LaneReports(
    cfg: ClaimConfig, world: ClaimWorld, lane: string, queue: seq<QueueItem>, st: ClaimState, here: nat)
    requires Ends(cfg, world) && !st.raised
    ensures LaneReported(here, st, DrainFrom(cfg, world, lane, queue, st, here))
    decreases Headroom(cfg, st.inProgress), KeysIn(queue) - st.register.keys
  {
    if GoesOn(cfg, world, lane, queue, st) {
      var next := Next(cfg, world, lane, queue, st);
      NextReports(cfg, world, lane, queue, st);
      if !next.raised {
        LaneReports(cfg, world, lane, queue, next, here + 1);
      }
      ReportedOn(here, st, next, DrainFrom(cfg, world, lane, queue, st, here));
    } else {
      StopIsReported(cfg, world, lane, queue, st, here);
    }
  }
}
