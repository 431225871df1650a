/** Claiming ready issues from the lane queues and rendering a Workload for each. */
module Claims {
  import opened Outcomes
  import opened Slug
  import opened Workloads
  import opened Coders
  import opened Saturation
  import opened Build

  // ----- Queue items

  /** A queue item; bot marks the ones the Renovate filter drops, an absent repo or number makes a claim useless. */
  datatype QueueItem = QueueItem(
    repo: Option<string>, number: Option<int>, lane: string, id: string, title: string,
    ready: bool, claimable: bool, agentMatch: bool, bot: bool)

  type Snapshot = map<string, seq<QueueItem>>

  datatype IssueKey = IssueKey(id: string, repo: Option<string>, number: Option<int>)

  function KeyOf(q: QueueItem): IssueKey {
    IssueKey(q.id, q.repo, q.number)
  }

  function LaneOf(q: QueueItem, polled: string): string {
    if q.lane == "" then polled else q.lane
  }

  /** `select_candidates` yields exactly these. */
  predicate Selectable(q: QueueItem, lane: string) {
    !q.bot && LaneOf(q, lane) == lane && q.ready && (q.claimable || q.agentMatch)
  }

  function ToClaimedItem(q: QueueItem, lane: string): ClaimedItem
    requires q.repo.Some? && q.number.Some?
  {
    ClaimedItem(q.repo.value, q.number.value, q.title, LaneOf(q, lane), q.id)
  }

  function QueueFor(snapshot: Snapshot, lane: string): seq<QueueItem> {
    if lane in snapshot then snapshot[lane] else []
  }

  function KeysIn(queue: seq<QueueItem>): set<IssueKey> {
    set q | q in queue :: KeyOf(q)
  }

  /** What Dispatch has granted, and how many claims it was asked for. */
  datatype Register = Register(keys: set<IssueKey>, asked: nat)

  /**
   * How Dispatch answers claims: refused says which of those posted to it fail, for whatever reason, and idempotent whether
   * a claim that was granted before is granted again.
   */
  datatype Granting = Granting(refused: set<nat>, idempotent: bool)

  predicate Grants(q: QueueItem, g: Granting, r: Register) {
    q.number.Some? && r.asked !in g.refused && (g.idempotent || KeyOf(q) !in r.keys)
  }

  function Ask(q: QueueItem, g: Granting, r: Register): Register {
    Register(if Grants(q, g, r) then r.keys + {KeyOf(q)} else r.keys, r.asked + 1)
  }

  /** Dispatch's claim register. */
  class Dispatch {
    const granting: Granting
    var register: Register

    constructor (granting: Granting)
      ensures this.granting == granting && register == Register({}, 0)
    {
      this.granting := granting;
      register := Register({}, 0);
    }

    method Claim(q: QueueItem) returns (granted: bool)
      modifies this
      ensures granted <==> Grants(q, granting, old(register))
      ensures register == Ask(q, granting, old(register))
    {
      granted := q.number.Some? && register.asked !in granting.refused && (granting.idempotent || KeyOf(q) !in register.keys);
      register := Register(if granted then register.keys + {KeyOf(q)} else register.keys, register.asked + 1);
    }
  }

  predicate Readable(q: QueueItem) {
    q.repo.Some? && q.number.Some?
  }

  predicate ClaimedFrom(q: QueueItem, lane: string, item: ClaimedItem) {
    Selectable(q, lane) && Readable(q) && item == ToClaimedItem(q, lane)
  }

  datatype Claim = Claim(item: Option<ClaimedItem>, register: Register)

  /** The candidates are tried in queue order until a claim goes through and can be read back. */
  function FirstClaim(lane: string, queue: seq<QueueItem>, g: Granting, r: Register): (c: Claim)
    ensures r.keys <= c.register.keys <= r.keys + KeysIn(queue)
    ensures c.item.Some? ==> c.item.value.lane == lane && (g.idempotent || r.keys < c.register.keys)
  {
    if queue == [] then Claim(None, r)
    else
      var q := queue[0];
      if !Selectable(q, lane) then FirstClaim(lane, queue[1..], g, r)
      else if Grants(q, g, r) && Readable(q) then Claim(Some(ToClaimedItem(q, lane)), Ask(q, g, r))
      else FirstClaim(lane, queue[1..], g, Ask(q, g, r))
  }

  /** `claim_one`. */
  method ClaimOne(dispatch: Dispatch, lane: string, queue: seq<QueueItem>) returns (item: Option<ClaimedItem>)
    modifies dispatch
    ensures Claim(item, dispatch.register) == FirstClaim(lane, queue, dispatch.granting, old(dispatch.register))
  {
    ghost var start := dispatch.register;
    for i := 0 to |queue|
      invariant FirstClaim(lane, queue, dispatch.granting, start) == FirstClaim(lane, queue[i..], dispatch.granting, dispatch.register)
    {
      var q := queue[i];
      assert queue[i..][1..] == queue[i + 1..];
      if Selectable(q, lane) {
        var granted := dispatch.Claim(q);
        if granted && q.repo.Some? && q.number.Some? {
          return Some(ToClaimedItem(q, lane));
        }
      }
    }
    item := None;
  }

  /** q cannot be claimed any more: it is nobody's candidate, already granted, or unreadable. */
  predicate Spent(q: QueueItem, lane: string, keys: set<IssueKey>) {
    !Selectable(q, lane) || KeyOf(q) in keys || !Readable(q)
  }

  /** The claim went to the i-th candidate, which nobody had, and no earlier one could be had. */
  predicate TakenAt(lane: string, queue: seq<QueueItem>, before: set<IssueKey>, c: Claim, i: nat) {
    && i < |queue| && c.item.Some? && ClaimedFrom(queue[i], lane, c.item.value) && KeyOf(queue[i]) !in before
    && forall j :: 0 <= j < i ==> Spent(queue[j], lane, c.register.keys)
  }

  lemma TakenFurtherOn(lane: string, queue: seq<QueueItem>, before: set<IssueKey>, between: set<IssueKey>, c: Claim, i: nat)
    requires queue != [] && before <= between && TakenAt(lane, queue[1..], between, c, i) && Spent(queue[0], lane, c.register.keys)
    ensures TakenAt(lane, queue, before, c, i + 1)
  {
    assert queue[1..][i] == queue[i + 1];
    forall j | 0 <= j < i + 1 ensures Spent(queue[j], lane, c.register.keys) {
      assert j > 0 ==> queue[j] == queue[1..][j - 1];
    }
  }

  /** A Dispatch that refuses nothing but what it granted before, and one that does not refuse even that. */
  const ONCE := Granting({}, false)
  const AGAIN := Granting({}, true)

  /** With the first, the claim goes to the first candidate not granted yet, and none is left when there is no claim. */
  lemma {:induction false} FirstClaimIsFirst(lane: string, queue: seq<QueueItem>, r: Register)
    ensures var c := FirstClaim(lane, queue, ONCE, r);
      if c.item.None? then forall q :: q in queue ==> Spent(q, lane, c.register.keys)
      else exists i :: TakenAt(lane, queue, r.keys, c, i)
  {
    if queue != [] {
      var q, c := queue[0], FirstClaim(lane, queue, ONCE, r);
      if Selectable(q, lane) && Grants(q, ONCE, r) && Readable(q) {
        assert TakenAt(lane, queue, r.keys, c, 0);
      } else {
        var r' := if Selectable(q, lane) then Ask(q, ONCE, r) else r;
        FirstClaimIsFirst(lane, queue[1..], r');
        if c.item.Some? {
          var i :| TakenAt(lane, queue[1..], r'.keys, c, i);
          TakenFurtherOn(lane, queue, r.keys, r'.keys, c, i);
        }
      }
    }
  }

  /** The first candidate of a lane whose claim can be read back. */
  function FirstReadable(lane: string, queue: seq<QueueItem>): Option<ClaimedItem> {
    if queue == [] then None
    else if Selectable(queue[0], lane) && Readable(queue[0]) then Some(ToClaimedItem(queue[0], lane))
    else FirstReadable(lane, queue[1..])
  }

  /** With the second, it is always the same one, however often it was granted. */
  lemma {:induction false} ClaimsTheSame(lane: string, queue: seq<QueueItem>, r: Register)
    ensures FirstClaim(lane, queue, AGAIN, r).item == FirstReadable(lane, queue)
  {
    if queue != [] {
      ClaimsTheSame(lane, queue[1..], if Selectable(queue[0], lane) then Ask(queue[0], AGAIN, r) else r);
    }
  }

  // ----- Claiming into the free capacity

  datatype ClaimConfig = ClaimConfig(
    maxInProgress: int,
    routing: Routing,
    revisionAgents: map<string, string>,
    slots: Slots,
    fixFirst: set<string>,
    render: Render)

  datatype ClaimTag = Capped(lane: string) | CodersBusy(lane: string) | Empty(lane: string)
    | CreatedFor(lane: string, item: ClaimedItem, coder: string)

  /** `revision_coder_agent_for`. */
  function RevisionCoder(lane: string, agents: map<string, string>, roles: Roles): string {
    var found := Lookup(agents, roles, lane);
    if found.Some? then found.value else ""
  }

  function CreatedCount(results: seq<ClaimTag>): nat {
    if results == [] then 0
    else CreatedCount(results[..|results| - 1]) + (if results[|results| - 1].CreatedFor? then 1 else 0)
  }

  function CreatedOn(results: seq<ClaimTag>, coder: string): nat {
    if results == [] then 0
    else
      var last := results[|results| - 1];
      CreatedOn(results[..|results| - 1], coder) + (if last.CreatedFor? && last.coder == coder then 1 else 0)
  }

  lemma CountSnoc(results: seq<ClaimTag>, tag: ClaimTag)
    ensures CreatedCount(results + [tag]) == CreatedCount(results) + (if tag.CreatedFor? then 1 else 0)
    ensures forall a :: CreatedOn(results + [tag], a) == CreatedOn(results, a) + (if tag.CreatedFor? && tag.coder == a then 1 else 0)
  {
    assert (results + [tag])[..|results|] == results;
  }

  /** The capacity check before a claim speaks for the coder picked after it, on every polled lane and for every repo. */
  ghost predicate CheckSeesCoder(cfg: ClaimConfig, lanes: seq<string>) {
    && cfg.slots != map[] && cfg.fixFirst == {}
    && forall lane, repo :: lane in lanes ==> RepoCovered(cfg, lane, repo)
  }

  predicate RepoCovered(cfg: ClaimConfig, lane: string, repo: string) {
    var language := LanguageOf(repo, cfg.render.gateProfiles);
    Tidy(lane, language, repo, cfg.routing) && Covered(lane, language, repo, cfg.routing)
  }

  /** What run_once has done so far. */
  ghost predicate ClaimsAddUp(
    cfg: ClaimConfig, lanes: seq<string>, start: Load, load: Load, before: nat, now: nat, results: seq<ClaimTag>)
  {
    && now == before + CreatedCount(results)
    && (cfg.maxInProgress > 0 ==> now <= before || now <= cfg.maxInProgress)
    && (forall a :: Held(load, a) == Held(start, a) + CreatedOn(results, a))
    && (forall r :: r in results && r.CreatedFor? ==> r.lane in lanes && r.item.lane == r.lane)
    && (CheckSeesCoder(cfg, lanes) ==> forall a :: WithinSlots(start, load, cfg.slots, a))
  }

  lemma TagAddsUp(
    cfg: ClaimConfig, lanes: seq<string>, start: Load, load: Load, before: nat, now: nat, results: seq<ClaimTag>, tag: ClaimTag)
    requires ClaimsAddUp(cfg, lanes, start, load, before, now, results) && !tag.CreatedFor?
    ensures ClaimsAddUp(cfg, lanes, start, load, before, now, results + [tag])
  {
    CountSnoc(results, tag);
  }

  lemma CreateAddsUp(
    cfg: ClaimConfig, lanes: seq<string>, start: Load, load: Load, before: nat, now: nat, results: seq<ClaimTag>,
    lane: string, item: ClaimedItem, coder: string)
    requires ClaimsAddUp(cfg, lanes, start, load, before, now, results)
    requires lane in lanes && item.lane == lane
    requires cfg.maxInProgress > 0 ==> now < cfg.maxInProgress
    requires CheckSeesCoder(cfg, lanes) ==> FreeSlots(coder, load, cfg.slots) > 0
    ensures ClaimsAddUp(cfg, lanes, start, Charge(load, coder), before, now + 1, results + [CreatedFor(lane, item, coder)])
  {
    CountSnoc(results, CreatedFor(lane, item, coder));
    if CheckSeesCoder(cfg, lanes) {
      forall a ensures WithinSlots(start, Charge(load, coder), cfg.slots, a) {
        assert WithinSlots(start, load, cfg.slots, a);
      }
    }
  }

  /** The Workload a claim is rendered into: first attempt of both budgets, no feedback, nothing to revise. */
  function ClaimManifest(cfg: ClaimConfig, item: ClaimedItem, coder: string): Workload {
    BuildWorkload(item, 1, 1, coder, "", RevisionCoder(item.lane, cfg.revisionAgents, cfg.routing.roles), "", cfg.render)
  }

  ghost predicate IsClaimed(cfg: ClaimConfig, w: Workload) {
    exists item, coder :: w == ClaimManifest(cfg, item, coder)
  }

  /** The cluster kept everything it held, gained only claimed Workloads, and holds one for every created item. */
  ghost predicate Grown(cfg: ClaimConfig, before: Objects, now: Objects, results: seq<ClaimTag>) {
    && (forall n :: n in before ==> n in now && now[n] == before[n])
    && (forall n :: n in now && n !in before ==> IsClaimed(cfg, now[n]) && now[n].name == n)
    && (forall r :: r in results && r.CreatedFor? ==> WorkloadName(r.item.repo, r.item.issueNumber) in now)
  }

  lemma CreateGrows(
    cfg: ClaimConfig, before: Objects, now: Objects, results: seq<ClaimTag>, lane: string, item: ClaimedItem, coder: string,
    reply: CreateReply)
    requires Grown(cfg, before, now, results)
    ensures var after := AfterCreate(now, ClaimManifest(cfg, item, coder), reply);
      && Grown(cfg, before, after, results)
      && (reply == Stored ==> Grown(cfg, before, after, results + [CreatedFor(lane, item, coder)]))
  {
    assert IsClaimed(cfg, ClaimManifest(cfg, item, coder));
  }

  // ----- The pass as a function

  /** What claiming does to the world; creates counts the create calls, raised is an exception from one. */
  datatype ClaimState = ClaimState(
    objects: Objects, register: Register, creates: nat, load: Load, inProgress: nat, results: seq<ClaimTag>, raised: bool)

  /** How the world answers the pass: the claims posted to Dispatch, and its create replies in order. */
  datatype ClaimWorld = ClaimWorld(granting: Granting, creates: seq<CreateReply>)

  /** What makes the drain loop end: a cap, or else a Dispatch that grants nothing twice. */
  predicate Ends(cfg: ClaimConfig, world: ClaimWorld) {
    cfg.maxInProgress != 0 || !world.granting.idempotent
  }

  /** How many more issues the cap lets the pass work at once. */
  function Headroom(cfg: ClaimConfig, inProgress: nat): nat {
    if cfg.maxInProgress > inProgress then cfg.maxInProgress - inProgress else 0
  }

  function CreateAt(world: ClaimWorld, k: nat): CreateReply {
    if k < |world.creates| then world.creates[k] else Stored
  }

  /** Why a lane is left: nothing is reported once something was created on it. */
  function Leave(st: ClaimState, here: nat, tag: ClaimTag): ClaimState {
    if here == 0 then st.(results := st.results + [tag]) else st
  }

  predicate AtCap(cfg: ClaimConfig, inProgress: int) {
    cfg.maxInProgress != 0 && inProgress >= cfg.maxInProgress
  }

  predicate LaneSaturated(cfg: ClaimConfig, lane: string, load: Load) {
    Saturated(Candidates(lane, cfg.routing.lane, load, cfg.slots, cfg.fixFirst), load, cfg.slots)
  }

  function ClaimCoder(cfg: ClaimConfig, item: ClaimedItem, load: Load): string {
    CoderFor(item.lane, LanguageOf(item.repo, cfg.render.gateProfiles), item.repo, item.issueNumber,
      cfg.routing, load, cfg.slots, cfg.fixFirst)
  }

  /** One claimed issue: rendered, created, and only then counted. */
  function Create(
    cfg: ClaimConfig, world: ClaimWorld, lane: string, item: ClaimedItem, register: Register, st: ClaimState): ClaimState
  {
    var coder, reply := ClaimCoder(cfg, item, st.load), CreateAt(world, st.creates);
    var objects := AfterCreate(st.objects, ClaimManifest(cfg, item, coder), reply);
    var created := st.(objects := objects, register := register, creates := st.creates + 1);
    if reply != Stored then created.(raised := true)
    else
      created.(load := Charge(st.load, coder), inProgress := st.inProgress + 1,
        results := st.results + [CreatedFor(lane, item, coder)])
  }

  /** The lane is neither capped nor saturated, and a claim goes through. */
  predicate GoesOn(cfg: ClaimConfig, world: ClaimWorld, lane: string, queue: seq<QueueItem>, st: ClaimState) {
    && !AtCap(cfg, st.inProgress) && !LaneSaturated(cfg, lane, st.load)
    && FirstClaim(lane, queue, world.granting, st.register).item.Some?
  }

  function Next(cfg: ClaimConfig, world: ClaimWorld, lane: string, queue: seq<QueueItem>, st: ClaimState): (next: ClaimState)
    requires GoesOn(cfg, world, lane, queue, st)
    ensures st.register.keys <= next.register.keys <= st.register.keys + KeysIn(queue)
    ensures !next.raised && cfg.maxInProgress != 0 ==> Headroom(cfg, next.inProgress) < Headroom(cfg, st.inProgress)
    ensures cfg.maxInProgress == 0 && !world.granting.idempotent ==> st.register.keys < next.register.keys
  {
    var claim := FirstClaim(lane, queue, world.granting, st.register);
    Create(cfg, world, lane, claim.item.value, claim.register, st)
  }

  function Stopped(cfg: ClaimConfig, world: ClaimWorld, lane: string, queue: seq<QueueItem>, st: ClaimState, here: nat): ClaimState {
    if AtCap(cfg, st.inProgress) then Leave(st, here, Capped(lane))
    else if LaneSaturated(cfg, lane, st.load) then Leave(st, here, CodersBusy(lane))
    else Leave(st.(register := FirstClaim(lane, queue, world.granting, st.register).register), here, Empty(lane))
  }

  lemma StopKeepsWorld(cfg: ClaimConfig, world: ClaimWorld, lane: string, queue: seq<QueueItem>, st: ClaimState, here: nat)
    ensures var s := Stopped(cfg, world, lane, queue, st, here);
      s.objects == st.objects && s.load == st.load && s.creates == st.creates && s.raised == st.raised
  {
  }

  /** One polled lane, drained until it is capped, saturated or empty, or a create raises. */
  function DrainFrom(
    cfg: ClaimConfig, world: ClaimWorld, lane: string, queue: seq<QueueItem>, st: ClaimState, here: nat): ClaimState
    requires Ends(cfg, world)
    decreases Headroom(cfg, st.inProgress), KeysIn(queue) - st.register.keys
  {
    if !GoesOn(cfg, world, lane, queue, st) then Stopped(cfg, world, lane, queue, st, here)
    else
      var next := Next(cfg, world, lane, queue, st);
      if next.raised then next else DrainFrom(cfg, world, lane, queue, next, here + 1)
  }

  function ClaimPass(cfg: ClaimConfig, world: ClaimWorld, lanes: seq<string>, snapshot: Snapshot, st: ClaimState): ClaimState
    requires Ends(cfg, world)
  {
    if lanes == [] then st
    else
      var n := |lanes| - 1;
      var before := ClaimPass(cfg, world, lanes[..n], snapshot, st);
      if before.raised then before else DrainFrom(cfg, world, lanes[n], QueueFor(snapshot, lanes[n]), before, 0)
  }

  // ----- What the pass keeps

  /** The books add up and the cluster only grew. */
  ghost predicate Sound(cfg: ClaimConfig, lanes: seq<string>, origin: Objects, start: Load, before: nat, st: ClaimState) {
    && ClaimsAddUp(cfg, lanes, start, st.load, before, st.inProgress, st.results)
    && Grown(cfg, origin, st.objects, st.results)
  }

  lemma CreateKeeps(
    cfg: ClaimConfig, world: ClaimWorld, lanes: seq<string>, lane: string, item: ClaimedItem, register: Register, st: ClaimState,
    origin: Objects, start: Load, before: nat)
    requires lane in lanes && item.lane == lane && !AtCap(cfg, st.inProgress) && !LaneSaturated(cfg, lane, st.load)
    requires Sound(cfg, lanes, origin, start, before, st)
    ensures Sound(cfg, lanes, origin, start, before, Create(cfg, world, lane, item, register, st))
  {
    var coder, language := ClaimCoder(cfg, item, st.load), LanguageOf(item.repo, cfg.render.gateProfiles);
    CreateGrows(cfg, origin, st.objects, st.results, lane, item, coder, CreateAt(world, st.creates));
    if CheckSeesCoder(cfg, lanes) {
      assert RepoCovered(cfg, lane, item.repo);
      CoveredHolds(lane, language, item.repo, item.issueNumber, cfg.routing, cfg.slots, st.load);
    }
    CreateAddsUp(cfg, lanes, start, st.load, before, st.inProgress, st.results, lane, item, coder);
  }

  lemma LeaveKeeps(
    cfg: ClaimConfig, lanes: seq<string>, st: ClaimState, here: nat, tag: ClaimTag, origin: Objects, start: Load, before: nat)
    requires Sound(cfg, lanes, origin, start, before, st) && !tag.CreatedFor?
    ensures Sound(cfg, lanes, origin, start, before, Leave(st, here, tag))
  {
    TagAddsUp(cfg, lanes, start, st.load, before, st.inProgress, st.results, tag);
  }

  lemma StopKeeps(
    cfg: ClaimConfig, world: ClaimWorld, lanes: seq<string>, lane: string, queue: seq<QueueItem>, st: ClaimState, here: nat,
    origin: Objects, start: Load, before: nat)
    requires Sound(cfg, lanes, origin, start, before, st)
    ensures Sound(cfg, lanes, origin, start, before, Stopped(cfg, world, lane, queue, st, here))
  {
    var claim := FirstClaim(lane, queue, world.granting, st.register);
    LeaveKeeps(cfg, lanes, st, here, Capped(lane), origin, start, before);
    LeaveKeeps(cfg, lanes, st, here, CodersBusy(lane), origin, start, before);
    LeaveKeeps(cfg, lanes, st.(register := claim.register), here, Empty(lane), origin, start, before);
  }

  lemma {:induction false} DrainKeeps(
    cfg: ClaimConfig, world: ClaimWorld, lanes: seq<string>, lane: string, queue: seq<QueueItem>, st: ClaimState, here: nat,
    origin: Objects, start: Load, before: nat)
    requires Ends(cfg, world)
    requires lane in lanes && Sound(cfg, lanes, origin, start, before, st)
    ensures Sound(cfg, lanes, origin, start, before, DrainFrom(cfg, world, lane, queue, st, here))
    decreases Headroom(cfg, st.inProgress), KeysIn(queue) - st.register.keys
  {
    if GoesOn(cfg, world, lane, queue, st) {
      var claim := FirstClaim(lane, queue, world.granting, st.register);
      CreateKeeps(cfg, world, lanes, lane, claim.item.value, claim.register, st, origin, start, before);
      var next := Next(cfg, world, lane, queue, st);
      if !next.raised {
        DrainKeeps(cfg, world, lanes, lane, queue, next, here + 1, origin, start, before);
      }
    } else {
      StopKeeps(cfg, world, lanes, lane, queue, st, here, origin, start, before);
    }
  }

  lemma {:induction false} PassKeeps(
    cfg: ClaimConfig, world: ClaimWorld, lanes: seq<string>, polled: seq<string>, snapshot: Snapshot, st: ClaimState,
    origin: Objects, start: Load, before: nat)
    requires Ends(cfg, world)
    requires (forall lane :: lane in polled ==> lane in lanes) && Sound(cfg, lanes, origin, start, before, st)
    ensures Sound(cfg, lanes, origin, start, before, ClaimPass(cfg, world, polled, snapshot, st))
  {
    if polled != [] {
      var n := |polled| - 1;
      PassKeeps(cfg, world, lanes, polled[..n], snapshot, st, origin, start, before);
      var middle := ClaimPass(cfg, world, polled[..n], snapshot, st);
      if !middle.raised {
        DrainKeeps(cfg, world, lanes, polled[n], QueueFor(snapshot, polled[n]), middle, 0, origin, start, before);
      }
    }
  }

  /** A lane is left capped, saturated, or with no candidate whose claim goes through. */
  ghost predicate LaneDone(cfg: ClaimConfig, world: ClaimWorld, lane: string, queue: seq<QueueItem>, after: ClaimState) {
    || AtCap(cfg, after.inProgress) || LaneSaturated(cfg, lane, after.load)
    || exists r :: FirstClaim(lane, queue, world.granting, r) == Claim(None, after.register)
  }

  lemma StopIsDone(cfg: ClaimConfig, world: ClaimWorld, lane: string, queue: seq<QueueItem>, st: ClaimState, here: nat)
    requires !GoesOn(cfg, world, lane, queue, st)
    ensures LaneDone(cfg, world, lane, queue, Stopped(cfg, world, lane, queue, st, here))
  {
    var claim := FirstClaim(lane, queue, world.granting, st.register);
    if !AtCap(cfg, st.inProgress) && !LaneSaturated(cfg, lane, st.load) {
      assert claim == Claim(None, claim.register);
    }
  }

  /** Nothing else ends a lane but an exception. */
  lemma {:induction false} LaneEnds(
    cfg: ClaimConfig, world: ClaimWorld, lane: string, queue: seq<QueueItem>, st: ClaimState, here: nat)
    requires Ends(cfg, world)
    requires !st.raised
    ensures var after := DrainFrom(cfg, world, lane, queue, st, here); after.raised || LaneDone(cfg, world, lane, queue, after)
    decreases Headroom(cfg, st.inProgress), KeysIn(queue) - st.register.keys
  {
    if GoesOn(cfg, world, lane, queue, st) {
      var next := Next(cfg, world, lane, queue, st);
      if !next.raised {
        LaneEnds(cfg, world, lane, queue, next, here + 1);
      }
    } else {
      StopIsDone(cfg, world, lane, queue, st, here);
    }
  }

  // ----- A cap ends the loop, whatever Dispatch grants

  /** Each create takes one off the headroom; the one that raises needed one too. */
  predicate SpendsHeadroom(cfg: ClaimConfig, st: ClaimState, after: ClaimState) {
    after.creates + (if after.raised then 0 else Headroom(cfg, after.inProgress)) <= st.creates + Headroom(cfg, st.inProgress)
  }

  lemma {:induction false} LaneWithinHeadroom(
    cfg: ClaimConfig, world: ClaimWorld, lane: string, queue: seq<QueueItem>, st: ClaimState, here: nat)
    requires Ends(cfg, world) && cfg.maxInProgress != 0 && !st.raised
    ensures SpendsHeadroom(cfg, st, DrainFrom(cfg, world, lane, queue, st, here))
    decreases Headroom(cfg, st.inProgress), KeysIn(queue) - st.register.keys
  {
    if GoesOn(cfg, world, lane, queue, st) {
      var next := Next(cfg, world, lane, queue, st);
      if !next.raised {
        LaneWithinHeadroom(cfg, world, lane, queue, next, here + 1);
      }
    } else {
      StopKeepsWorld(cfg, world, lane, queue, st, here);
    }
  }

  /** With a cap a whole pass makes at most as many creates as the cap leaves room for, whatever Dispatch grants. */
  lemma {:induction false} PassWithinHeadroom(cfg: ClaimConfig, world: ClaimWorld, lanes: seq<string>, snapshot: Snapshot, st: ClaimState)
    requires Ends(cfg, world) && cfg.maxInProgress != 0 && !st.raised
    ensures SpendsHeadroom(cfg, st, ClaimPass(cfg, world, lanes, snapshot, st))
  {
    if lanes != [] {
      var n := |lanes| - 1;
      PassWithinHeadroom(cfg, world, lanes[..n], snapshot, st);
      var before := ClaimPass(cfg, world, lanes[..n], snapshot, st);
      if !before.raised {
        LaneWithinHeadroom(cfg, world, lanes[n], QueueFor(snapshot, lanes[n]), before, 0);
      }
    }
  }

  /** The loop is still going after n turns. */
  ghost predicate RunsOn(cfg: ClaimConfig, world: ClaimWorld, lane: string, queue: seq<QueueItem>, st: ClaimState, n: nat)
    decreases n
  {
    && GoesOn(cfg, world, lane, queue, st)
    && (n > 0 ==> var next := Next(cfg, world, lane, queue, st); !next.raised && RunsOn(cfg, world, lane, queue, next, n - 1))
  }

  /** A Dispatch that grants a claim again, creates that all work, and no capacities declared. */
  predicate Generous(cfg: ClaimConfig, world: ClaimWorld) {
    cfg.slots == map[] && world == ClaimWorld(AGAIN, [])
  }

  /** Without a cap such a lane is drained for ever, exactly when it has a candidate whose claim can be read back. */
  lemma {:induction false} NeverEnds(
    cfg: ClaimConfig, world: ClaimWorld, lane: string, queue: seq<QueueItem>, st: ClaimState, n: nat)
    requires cfg.maxInProgress == 0 && Generous(cfg, world) && !st.raised
    ensures RunsOn(cfg, world, lane, queue, st, n) <==> FirstReadable(lane, queue).Some?
    decreases n
  {
    ClaimsTheSame(lane, queue, st.register);
    assert GoesOn(cfg, world, lane, queue, st) <==> FirstReadable(lane, queue).Some?;
    if n > 0 && GoesOn(cfg, world, lane, queue, st) {
      var next := Next(cfg, world, lane, queue, st);
      assert CreateAt(world, st.creates) == Stored;
      NeverEnds(cfg, world, lane, queue, next, n - 1);
    }
  }

  /** With one, its first candidate uses up all the headroom, with a single Workload to show for it. */
  lemma {:induction false} SpentOnOne(
    cfg: ClaimConfig, world: ClaimWorld, lane: string, queue: seq<QueueItem>, st: ClaimState, here: nat)
    requires Ends(cfg, world) && cfg.maxInProgress != 0 && Generous(cfg, world) && FirstReadable(lane, queue).Some? && !st.raised
    ensures var item, after := FirstReadable(lane, queue).value, DrainFrom(cfg, world, lane, queue, st, here);
      && after.creates == st.creates + Headroom(cfg, st.inProgress) && !after.raised
      && after.inProgress == st.inProgress + Headroom(cfg, st.inProgress)
      && after.objects.Keys == st.objects.Keys
        + (if Headroom(cfg, st.inProgress) > 0 then {WorkloadName(item.repo, item.issueNumber)} else {})
    decreases Headroom(cfg, st.inProgress)
  {
    ClaimsTheSame(lane, queue, st.register);
    if GoesOn(cfg, world, lane, queue, st) {
      SpentOnOne(cfg, world, lane, queue, Next(cfg, world, lane, queue, st), here + 1);
    } else {
      StopKeepsWorld(cfg, world, lane, queue, st, here);
    }
  }

  /** An exception comes from the last create made, and the ones before it were stored. */
  predicate RaisedByLast(world: ClaimWorld, from: nat, st: ClaimState) {
    && st.creates >= from
    && (st.raised <==> st.creates > from && CreateAt(world, st.creates - 1) != Stored)
    && forall k :: from <= k < st.creates - 1 ==> CreateAt(world, k) == Stored
  }

  lemma StopRaisesNothing(
    cfg: ClaimConfig, world: ClaimWorld, lane: string, queue: seq<QueueItem>, st: ClaimState, here: nat, from: nat)
    requires RaisedByLast(world, from, st)
    ensures RaisedByLast(world, from, Stopped(cfg, world, lane, queue, st, here))
  {
  }

  lemma CreateCounts(
    cfg: ClaimConfig, world: ClaimWorld, lane: string, item: ClaimedItem, register: Register, st: ClaimState)
    requires !st.raised
    ensures var r := Create(cfg, world, lane, item, register, st);
      r.creates == st.creates + 1 && (r.raised <==> CreateAt(world, st.creates) != Stored)
  {
  }

  lemma NextRaises(
    cfg: ClaimConfig, world: ClaimWorld, lane: string, item: ClaimedItem, register: Register, st: ClaimState, from: nat)
    requires !st.raised && RaisedByLast(world, from, st)
    ensures RaisedByLast(world, from, Create(cfg, world, lane, item, register, st))
  {
    CreateCounts(cfg, world, lane, item, register, st);
    RaisedFrom(world, from, st, Create(cfg, world, lane, item, register, st));
  }

  lemma RaisedFrom(world: ClaimWorld, from: nat, st: ClaimState, r: ClaimState)
    requires !st.raised && RaisedByLast(world, from, st)
    requires r.creates == st.creates + 1 && (r.raised <==> CreateAt(world, st.creates) != Stored)
    ensures RaisedByLast(world, from, r)
  {
  }

  lemma {:induction false} DrainRaises(
    cfg: ClaimConfig, world: ClaimWorld, lane: string, queue: seq<QueueItem>, st: ClaimState, here: nat, from: nat)
    requires Ends(cfg, world)
    requires !st.raised && RaisedByLast(world, from, st)
    ensures RaisedByLast(world, from, DrainFrom(cfg, world, lane, queue, st, here))
    decreases Headroom(cfg, st.inProgress), KeysIn(queue) - st.register.keys
  {
    if GoesOn(cfg, world, lane, queue, st) {
      var next, claim := Next(cfg, world, lane, queue, st), FirstClaim(lane, queue, world.granting, st.register);
      NextRaises(cfg, world, lane, claim.item.value, claim.register, st, from);
      if !next.raised {
        DrainRaises(cfg, world, lane, queue, next, here + 1, from);
      }
    } else {
      StopRaisesNothing(cfg, world, lane, queue, st, here, from);
    }
  }

  lemma {:induction false} PassRaises(cfg: ClaimConfig, world: ClaimWorld, lanes: seq<string>, snapshot: Snapshot, st: ClaimState)
    requires Ends(cfg, world)
    requires !st.raised
    ensures RaisedByLast(world, st.creates, ClaimPass(cfg, world, lanes, snapshot, st))
  {
    if lanes != [] {
      var n := |lanes| - 1;
      PassRaises(cfg, world, lanes[..n], snapshot, st);
      var before := ClaimPass(cfg, world, lanes[..n], snapshot, st);
      if !before.raised {
        DrainRaises(cfg, world, lanes[n], QueueFor(snapshot, lanes[n]), before, 0, st.creates);
      }
    }
  }

  // ----- The pass as the bridge runs it

  /** Renders and creates the Workload of a claimed issue. */
  method Materialize(cfg: ClaimConfig, item: ClaimedItem, coder: string, reply: CreateReply, cluster: Cluster) returns (raised: bool)
    modifies cluster
    ensures cluster.objects == AfterCreate(old(cluster.objects), ClaimManifest(cfg, item, coder), reply)
    ensures raised <==> reply != Stored
  {
    raised := cluster.Create(ClaimManifest(cfg, item, coder), reply);
  }

  method Report(results: seq<ClaimTag>, createdHere: nat, tag: ClaimTag) returns (results': seq<ClaimTag>)
    ensures results' == if createdHere == 0 then results + [tag] else results
  {
    results' := results;
    if createdHere == 0 {
      results' := results' + [tag];
    }
  }

  method CreateOne(
    cfg: ClaimConfig, world: ClaimWorld, lane: string, item: ClaimedItem, dispatch: Dispatch, cluster: Cluster,
    creates: nat, load: Load, inProgress: nat, results: seq<ClaimTag>)
    returns (creates': nat, load': Load, inProgress': nat, results': seq<ClaimTag>, raised: bool)
    modifies cluster
    ensures dispatch.register == old(dispatch.register)
    ensures ClaimState(cluster.objects, dispatch.register, creates', load', inProgress', results', raised)
      == Create(cfg, world, lane, item, dispatch.register,
        ClaimState(old(cluster.objects), dispatch.register, creates, load, inProgress, results, false))
  {
    var coder := ClaimCoder(cfg, item, load);
    raised := Materialize(cfg, item, coder, CreateAt(world, creates), cluster);
    creates', load', inProgress', results' := creates + 1, load, inProgress, results;
    if !raised {
      inProgress' := inProgress' + 1;
      load' := Charge(load', coder);
      results' := results' + [CreatedFor(lane, item, coder)];
    }
  }

  /** The two reasons not even to try a claim. */
  method CheckLane(cfg: ClaimConfig, lane: string, load: Load, inProgress: nat) returns (why: Option<ClaimTag>)
    ensures why == if AtCap(cfg, inProgress) then Some(Capped(lane))
      else if LaneSaturated(cfg, lane, load) then Some(CodersBusy(lane)) else None
  {
    if cfg.maxInProgress != 0 && inProgress >= cfg.maxInProgress {
      return Some(Capped(lane));
    }
    if Saturated(Candidates(lane, cfg.routing.lane, load, cfg.slots, cfg.fixFirst), load, cfg.slots) {
      return Some(CodersBusy(lane));
    }
    why := None;
  }

  /** One turn of the drain loop. */
  method LaneTurn(
    cfg: ClaimConfig, world: ClaimWorld, lane: string, queue: seq<QueueItem>, dispatch: Dispatch, cluster: Cluster,
    creates: nat, load: Load, inProgress: nat, results: seq<ClaimTag>, createdHere: nat)
    returns (creates': nat, load': Load, inProgress': nat, results': seq<ClaimTag>, raised: bool, done: bool)
    requires dispatch.granting == world.granting
    modifies dispatch, cluster
    ensures var st := ClaimState(old(cluster.objects), old(dispatch.register), creates, load, inProgress, results, false);
      var now := ClaimState(cluster.objects, dispatch.register, creates', load', inProgress', results', raised);
      if GoesOn(cfg, world, lane, queue, st) then now == Next(cfg, world, lane, queue, st) && (done <==> raised)
      else now == Stopped(cfg, world, lane, queue, st, createdHere) && done
  {
    creates', load', inProgress', results', raised, done := creates, load, inProgress, results, false, true;
    var why := CheckLane(cfg, lane, load, inProgress);
    if why.Some? {
      results' := Report(results, createdHere, why.value);
      return;
    }
    var claim := ClaimOne(dispatch, lane, queue);
    if claim.None? {
      results' := Report(results, createdHere, Empty(lane));
      return;
    }
    creates', load', inProgress', results', raised :=
      CreateOne(cfg, world, lane, claim.value, dispatch, cluster, creates, load, inProgress, results);
    done := raised;
  }

  method DrainLane(
    cfg: ClaimConfig, world: ClaimWorld, lane: string, queue: seq<QueueItem>, dispatch: Dispatch, cluster: Cluster,
    creates: nat, load: Load, inProgress: nat, results: seq<ClaimTag>)
    returns (creates': nat, load': Load, inProgress': nat, results': seq<ClaimTag>, raised: bool)
    requires Ends(cfg, world)
    requires dispatch.granting == world.granting
    modifies dispatch, cluster
    ensures ClaimState(cluster.objects, dispatch.register, creates', load', inProgress', results', raised)
      == DrainFrom(cfg, world, lane, queue,
        ClaimState(old(cluster.objects), old(dispatch.register), creates, load, inProgress, results, false), 0)
  {
    creates', load', inProgress', results', raised := creates, load, inProgress, results, false;
    ghost var start := ClaimState(cluster.objects, dispatch.register, creates, load, inProgress, results, false);
    var createdHere := 0;
    while true
      invariant DrainFrom(cfg, world, lane, queue, start, 0) == DrainFrom(cfg, world, lane, queue,
        ClaimState(cluster.objects, dispatch.register, creates', load', inProgress', results', false), createdHere)
      decreases Headroom(cfg, inProgress'), KeysIn(queue) - dispatch.register.keys
    {
      var done;
      creates', load', inProgress', results', raised, done :=
        LaneTurn(cfg, world, lane, queue, dispatch, cluster, creates', load', inProgress', results', createdHere);
      if done {
        return;
      }
      createdHere := createdHere + 1;
    }
  }

  /** What run_once ends with. */
  lemma PassFacts(
    cfg: ClaimConfig, world: ClaimWorld, lanes: seq<string>, snapshot: Snapshot, objects: Objects, register: Register,
    load: Load, start: nat)
    requires Ends(cfg, world)
    ensures var r := ClaimPass(cfg, world, lanes, snapshot, ClaimState(objects, register, 0, load, start, [], false));
      Sound(cfg, lanes, objects, load, start, r) && RaisedByLast(world, 0, r)
  {
    var origin := ClaimState(objects, register, 0, load, start, [], false);
    PassKeeps(cfg, world, lanes, lanes, snapshot, origin, objects, load, start);
    PassRaises(cfg, world, lanes, snapshot, origin);
  }

  method PollLanes(
    cfg: ClaimConfig, world: ClaimWorld, lanes: seq<string>, snapshot: Snapshot, dispatch: Dispatch, cluster: Cluster,
    load: Load, start: nat)
    returns (results: seq<ClaimTag>, inProgress: nat, after: Load, creates: nat, raised: bool)
    requires Ends(cfg, world)
    requires dispatch.granting == world.granting
    modifies dispatch, cluster
    ensures ClaimState(cluster.objects, dispatch.register, creates, after, inProgress, results, raised)
      == ClaimPass(cfg, world, lanes, snapshot, ClaimState(old(cluster.objects), old(dispatch.register), 0, load, start, [], false))
  {
    ghost var origin := ClaimState(cluster.objects, dispatch.register, 0, load, start, [], false);
    after, inProgress, results, creates, raised := load, start, [], 0, false;
    var i := 0;
    while i < |lanes| && !raised
      invariant 0 <= i <= |lanes|
      invariant ClaimState(cluster.objects, dispatch.register, creates, after, inProgress, results, raised)
        == ClaimPass(cfg, world, lanes[..i], snapshot, origin)
    {
      assert lanes[..i + 1][..i] == lanes[..i];
      creates, after, inProgress, results, raised :=
        DrainLane(cfg, world, lanes[i], QueueFor(snapshot, lanes[i]), dispatch, cluster, creates, after, inProgress, results);
      i := i + 1;
    }
    RaisedPassStays(cfg, world, lanes, snapshot, origin, i);
  }

  /** `run_once`; it counts on its own copy of the load. */
  method RunOnce(
    cfg: ClaimConfig, world: ClaimWorld, lanes: seq<string>, snapshot: Snapshot, dispatch: Dispatch, cluster: Cluster,
    load: Load, start: nat)
    returns (results: seq<ClaimTag>, inProgress: nat, after: Load, creates: nat, raised: bool)
    requires Ends(cfg, world)
    requires dispatch.granting == world.granting
    modifies dispatch, cluster
    ensures ClaimState(cluster.objects, dispatch.register, creates, after, inProgress, results, raised)
      == ClaimPass(cfg, world, lanes, snapshot, ClaimState(old(cluster.objects), old(dispatch.register), 0, load, start, [], false))
    ensures ClaimsAddUp(cfg, lanes, load, after, start, inProgress, results)
    ensures Grown(cfg, old(cluster.objects), cluster.objects, results)
    ensures raised <==> creates > 0 && CreateAt(world, creates - 1) != Stored
  {
    ghost var objects, register := cluster.objects, dispatch.register;
    results, inProgress, after, creates, raised := PollLanes(cfg, world, lanes, snapshot, dispatch, cluster, load, start);
    PassFacts(cfg, world, lanes, snapshot, objects, register, load, start);
  }

  lemma {:induction false} RaisedPassStays(
    cfg: ClaimConfig, world: ClaimWorld, lanes: seq<string>, snapshot: Snapshot, st: ClaimState, i: nat)
    requires Ends(cfg, world)
    requires i <= |lanes| && (ClaimPass(cfg, world, lanes[..i], snapshot, st).raised || i == |lanes|)
    ensures ClaimPass(cfg, world, lanes, snapshot, st) == ClaimPass(cfg, world, lanes[..i], snapshot, st)
    decreases |lanes| - i
  {
    if i < |lanes| {
      assert lanes[..i + 1][..i] == lanes[..i];
      RaisedPassStays(cfg, world, lanes, snapshot, st, i + 1);
    } else {
      assert lanes[..i] == lanes;
    }
  }
}
