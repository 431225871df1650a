/** The terminal-since clock and the garbage collection that reads it. Instants count microseconds, stamps whole seconds. */
module Prune {
  import opened Outcomes
  import opened Workloads
  import opened Registers

  const SECOND := 1_000_000

  /** An annotation that is a readable timestamp, or one that is not. */
  datatype Stamp = At(second: int) | Unreadable

  /** The stamp annotations of a Workload, one key a phase. */
  type Stamps = map<Phase, Stamp>

  predicate Terminal(phase: Phase) {
    phase == Completed || phase == Failed
  }

  /** What `strftime` keeps of an instant. */
  function SecondOf(now: int): int {
    now / SECOND
  }

  /** A PATCH that raises may still have been stored. */
  datatype PatchReply = Landed | RaisedLost | RaisedLanded

  function Stamped(stamps: Stamps, phase: Phase, now: int): Stamps {
    stamps[phase := At(SecondOf(now))]
  }

  /** What the tick goes on with after trying to stamp: a failed PATCH takes the stamp back. */
  function InMemory(stamps: Stamps, phase: Phase, now: int, patch: PatchReply): Stamps {
    if !Terminal(phase) || phase in stamps || patch != Landed then stamps else Stamped(stamps, phase, now)
  }

  /** What the next tick reads from the cluster. */
  function Persisted(stamps: Stamps, phase: Phase, now: int, patch: PatchReply): Stamps {
    if !Terminal(phase) || phase in stamps || patch == RaisedLost then stamps else Stamped(stamps, phase, now)
  }

  /** A listed Workload as prune reads it; the manifest's stamps are written in place. */
  class Tombstone {
    const name: string
    const createdBy: Creator
    const phase: Phase
    const legacy: Option<Stamp>
    const created: Option<Stamp>
    const hasIdentity: bool
    const issue: Ref
    var stamps: Stamps

    constructor (
      name: string, createdBy: Creator, phase: Phase, legacy: Option<Stamp>, created: Option<Stamp>, hasIdentity: bool,
      issue: Ref, stamps: Stamps)
      ensures this.name == name && this.createdBy == createdBy && this.phase == phase && this.legacy == legacy
      ensures this.created == created && this.hasIdentity == hasIdentity && this.issue == issue && this.stamps == stamps
    {
      this.name, this.createdBy, this.phase, this.legacy := name, createdBy, phase, legacy;
      this.created, this.hasIdentity, this.issue, this.stamps := created, hasIdentity, issue, stamps;
    }

    /** `stamp_terminal_since`: a readable stamp for this phase is never overwritten. */
    method StampTerminalSince(now: int) returns (written: Option<Stamp>)
      modifies this
      ensures !Terminal(phase) ==> written == None && stamps == old(stamps)
      ensures Terminal(phase) && phase in old(stamps) && old(stamps)[phase].At? ==>
        written == Some(old(stamps)[phase]) && stamps == old(stamps)
      ensures Terminal(phase) && !(phase in old(stamps) && old(stamps)[phase].At?) ==>
        written == Some(At(SecondOf(now))) && stamps == Stamped(old(stamps), phase, now)
    {
      if !Terminal(phase) {
        return None;
      }
      if phase in stamps && stamps[phase].At? {
        return Some(stamps[phase]);
      }
      stamps := stamps[phase := At(SecondOf(now))];
      written := Some(At(SecondOf(now)));
    }

    /** The stamping part of `_list_terminal_candidates` for one Workload. */
    method StampAndPatch(now: int, patch: PatchReply)
      modifies this
      ensures stamps == InMemory(old(stamps), phase, now, patch)
    {
      if !Terminal(phase) || phase in stamps {
        return;
      }
      var _ := StampTerminalSince(now);
      if patch != Landed {
        stamps := stamps - {phase};
      }
    }
  }

  function Readable(stamp: Option<Stamp>): Option<int> {
    match stamp
    case Some(At(second)) => Some(second)
    case _ => None
  }

  /** `terminal_since`: the phase's own stamp, else the legacy one, else the creation time. */
  function TerminalSince(stamps: Stamps, phase: Phase, legacy: Option<Stamp>, created: Option<Stamp>): Option<int> {
    if Terminal(phase) && phase in stamps && stamps[phase].At? then Some(stamps[phase].second)
    else if Terminal(phase) && Readable(legacy).Some? then Readable(legacy)
    else Readable(created)
  }

  datatype Ttls = Ttls(completed: int, failed: int)

  /** Whether a tick looks at tombstones at all. */
  predicate Listing(ttls: Ttls) {
    ttls.completed > 0 || ttls.failed > 0
  }

  function TtlFor(phase: Phase, ttls: Ttls): int {
    match phase case Completed => ttls.completed case Failed => ttls.failed case _ => 0
  }

  /** The age test of `prunable_workloads`. */
  predicate Expired(phase: Phase, since: Option<int>, now: int, ttls: Ttls) {
    TtlFor(phase, ttls) > 0 && since.Some? && now - since.value * SECOND >= TtlFor(phase, ttls) * SECOND
  }

  // ----- A Workload that stays terminal, tick after tick

  /**
   * With a TTL on, Foreman keeps reporting one terminal phase; each tick has the instant it prunes by, the later one it
   * stamps with, and its PATCH outcome.
   */
  datatype Clock = Clock(
    phase: Phase, legacy: Option<Stamp>, created: Option<Stamp>, stamps: Stamps,
    checks: seq<int>, nows: seq<int>, patches: seq<PatchReply>)

  /** The instant a tick prunes by is taken before the listing that stamps, and ticks follow one another. */
  predicate Runs(c: Clock) {
    && Terminal(c.phase) && |c.patches| == |c.checks| == |c.nows|
    && (forall i :: 0 <= i < |c.nows| ==> c.checks[i] <= c.nows[i])
    && forall i, j :: 0 <= i < j < |c.nows| ==> c.nows[i] <= c.checks[j]
  }

  /** Due for deletion, by the stamps the tick goes on with. */
  predicate IsDue(phase: Phase, legacy: Option<Stamp>, created: Option<Stamp>, stamps: Stamps, now: int, ttls: Ttls) {
    Expired(phase, TerminalSince(stamps, phase, legacy, created), now, ttls)
  }

  /** The age of a terminal Workload counts from its own phase's stamp, else from the legacy one, else from its creation. */
  lemma SinceIs(stamps: Stamps, phase: Phase, legacy: Option<Stamp>, created: Option<Stamp>, s: int)
    requires Terminal(phase)
    ensures phase in stamps && stamps[phase] == At(s) ==> TerminalSince(stamps, phase, legacy, created) == Some(s)
    ensures (phase !in stamps || stamps[phase] == Unreadable) && legacy == Some(At(s)) ==>
      TerminalSince(stamps, phase, legacy, created) == Some(s)
    ensures (phase !in stamps || stamps[phase] == Unreadable) && legacy in {None, Some(Unreadable)} && created == Some(At(s)) ==>
      TerminalSince(stamps, phase, legacy, created) == Some(s)
    ensures (phase !in stamps || stamps[phase] == Unreadable) && legacy in {None, Some(Unreadable)} && created in {None, Some(Unreadable)} ==>
      TerminalSince(stamps, phase, legacy, created) == None
  {
  }

  /** A Workload still at work is never stamped, and what stamps it carries do not count. */
  lemma OnlyTerminalCounts(stamps: Stamps, phase: Phase, legacy: Option<Stamp>, created: Option<Stamp>, now: int, patch: PatchReply)
    requires !Terminal(phase)
    ensures InMemory(stamps, phase, now, patch) == Persisted(stamps, phase, now, patch) == stamps
    ensures TerminalSince(stamps, phase, legacy, created) == Readable(created)
  {
  }

  /** Each terminal phase has its own TTL, counted in seconds and switched off at 0; no other phase is ever due. */
  lemma DueExactly(phase: Phase, legacy: Option<Stamp>, created: Option<Stamp>, stamps: Stamps, now: int, ttls: Ttls)
    ensures var since := TerminalSince(stamps, phase, legacy, created);
      && (phase == Completed ==> (IsDue(phase, legacy, created, stamps, now, ttls) <==>
        ttls.completed > 0 && since.Some? && now >= (since.value + ttls.completed) * 1_000_000))
      && (phase == Failed ==> (IsDue(phase, legacy, created, stamps, now, ttls) <==>
        ttls.failed > 0 && since.Some? && now >= (since.value + ttls.failed) * 1_000_000))
      && (!Terminal(phase) ==> !IsDue(phase, legacy, created, stamps, now, ttls))
  {
  }

  /** The stamps the cluster holds when tick k begins. */
  function StoredAt(c: Clock, k: nat): Stamps
    requires k <= |c.nows| == |c.patches|
  {
    if k == 0 then c.stamps else Persisted(StoredAt(c, k - 1), c.phase, c.nows[k - 1], c.patches[k - 1])
  }

  /** Tick k attempts the delete. */
  predicate Attempts(c: Clock, ttls: Ttls, k: nat)
    requires k < |c.nows| == |c.patches| == |c.checks|
  {
    IsDue(c.phase, c.legacy, c.created, InMemory(StoredAt(c, k), c.phase, c.nows[k], c.patches[k]), c.checks[k], ttls)
  }

  /** Once stored, a stamp never moves. */
  lemma {:induction false} StampIsConstant(c: Clock, first: nat, k: nat)
    requires Runs(c) && first <= k <= |c.nows| && c.phase in StoredAt(c, first)
    ensures c.phase in StoredAt(c, k) && StoredAt(c, k)[c.phase] == StoredAt(c, first)[c.phase]
  {
    if first < k {
      StampIsConstant(c, first, k - 1);
    }
  }

  /** A stored stamp is the second of the first tick whose PATCH was stored. */
  lemma {:induction false} StampIsFirstSeen(c: Clock, k: nat)
    requires Runs(c) && k <= |c.nows| && c.phase !in c.stamps
    ensures c.phase in StoredAt(c, k) <==> exists j :: 0 <= j < k && c.patches[j] != RaisedLost
    ensures forall j :: 0 <= j < k && c.patches[j] != RaisedLost && (forall i :: 0 <= i < j ==> c.patches[i] == RaisedLost) ==>
      StoredAt(c, k) == c.stamps[c.phase := At(SecondOf(c.nows[j]))]
    ensures c.phase !in StoredAt(c, k) ==> StoredAt(c, k) == c.stamps
  {
    if k > 0 {
      StampIsFirstSeen(c, k - 1);
    }
  }

  /**
   * After a stamp was stored at second s, a tick attempts the delete exactly when s + TTL is reached. One that cannot be
   * read is never replaced: the legacy stamp or the creation time decides for ever.
   */
  lemma StoredStampDecides(c: Clock, ttls: Ttls, first: nat, k: nat)
    requires Runs(c) && first <= k < |c.nows| && TtlFor(c.phase, ttls) > 0 && c.phase in StoredAt(c, first)
    ensures var stamp := StoredAt(c, first)[c.phase];
      && (stamp.At? ==> (Attempts(c, ttls, k) <==> c.checks[k] >= (stamp.second + TtlFor(c.phase, ttls)) * SECOND))
      && (stamp.Unreadable? ==> var base := TerminalSince(map[], c.phase, c.legacy, c.created);
        Attempts(c, ttls, k) <==> base.Some? && c.checks[k] >= (base.value + TtlFor(c.phase, ttls)) * SECOND)
  {
    StampIsConstant(c, first, k);
  }

  /** The tick that first stamps a Workload never deletes it: its prune instant is not after the stamp. */
  lemma StampingTickKeeps(c: Clock, ttls: Ttls, k: nat)
    requires Runs(c) && k < |c.nows| && c.phase !in StoredAt(c, k) && c.patches[k] == Landed
    ensures !Attempts(c, ttls, k)
  {
    assert c.nows[k] - SecondOf(c.nows[k]) * SECOND == c.nows[k] % SECOND;
  }

  /** A delete that was attempted on a stored stamp is attempted again by every later tick. */
  lemma DueStaysDue(c: Clock, ttls: Ttls, k: nat, later: nat)
    requires Runs(c) && k <= later < |c.nows| && c.phase in StoredAt(c, k) && Attempts(c, ttls, k)
    ensures Attempts(c, ttls, later)
  {
    StampIsConstant(c, k, later);
  }

  /** Without one it need not be: a PATCH that lands puts a due delete off until the new stamp is a TTL old. */
  lemma LandedStampPostpones(c: Clock, ttls: Ttls, k: nat, later: nat)
    requires Runs(c) && k < later < |c.nows| && c.phase !in StoredAt(c, k) && c.patches[k] == RaisedLost
    requires c.phase !in StoredAt(c, later) && c.patches[later] == Landed && Attempts(c, ttls, k)
    ensures !Attempts(c, ttls, later)
    ensures forall m :: later < m < |c.nows| ==>
      (Attempts(c, ttls, m) <==> c.checks[m] >= (SecondOf(c.nows[later]) + TtlFor(c.phase, ttls)) * SECOND)
  {
    StampingTickKeeps(c, ttls, later);
    forall m | later < m < |c.nows|
      ensures Attempts(c, ttls, m) <==> c.checks[m] >= (SecondOf(c.nows[later]) + TtlFor(c.phase, ttls)) * SECOND
    {
      StoredStampDecides(c, ttls, later + 1, m);
    }
  }

  /** While every PATCH is lost, age counts from the older stamp or the creation time, so pruning is not put off. */
  lemma LostStampsDoNotPostpone(c: Clock, ttls: Ttls, k: nat)
    requires Runs(c) && k < |c.nows| && c.phase !in c.stamps && TtlFor(c.phase, ttls) > 0
    requires forall j :: 0 <= j <= k ==> c.patches[j] == RaisedLost
    ensures var base := TerminalSince(c.stamps, c.phase, c.legacy, c.created);
      Attempts(c, ttls, k) <==> base.Some? && c.checks[k] >= (base.value + TtlFor(c.phase, ttls)) * SECOND
  {
    StampIsFirstSeen(c, k);
  }

  // ----- Deleting, and what happens to the issue

  datatype ParkedReply = Parked | NotParked | CheckRaised

  datatype PruneAnswers = PruneAnswers(delete: DeleteReply, parked: ParkedReply, reset: Write)

  datatype PruneEvent = Removed(name: string) | RemoveFailed(name: string) | ParkedCheckFailed(name: string)
    | LeftParked(name: string) | ResetSkipped(name: string) | ResetDone(name: string) | ResetFailed(name: string)

  /** The issue goes back to ready unless it is parked, however the delete went. */
  predicate Resets(createdBy: Creator, phase: Phase, hasIdentity: bool, a: PruneAnswers) {
    phase == Failed && a.parked != Parked && createdBy == IssueBridge && hasIdentity
  }

  function EventsFor(name: string, createdBy: Creator, phase: Phase, hasIdentity: bool, a: PruneAnswers): seq<PruneEvent> {
    [if a.delete == Gone then Removed(name) else RemoveFailed(name)]
    + (if phase == Failed && a.parked == CheckRaised then [ParkedCheckFailed(name)] else [])
    + (if phase != Failed then []
       else if a.parked == Parked then [LeftParked(name)]
       else if !Resets(createdBy, phase, hasIdentity, a) then [ResetSkipped(name)]
       else if a.reset.reply == Raises then [ResetFailed(name)]
       else [ResetDone(name)])
  }

  /** What one tombstone does to the world: the cluster, the issues at ready, and the log. */
  datatype PruneState = PruneState(objects: Objects, ready: set<Ref>, events: seq<PruneEvent>)

  function Pruned(w: Tombstone, a: PruneAnswers, st: PruneState): PruneState {
    PruneState(
      AfterDelete(st.objects, w.name, a.delete),
      st.ready + (if Resets(w.createdBy, w.phase, w.hasIdentity, a) && a.reset.landed then {w.issue} else {}),
      st.events + EventsFor(w.name, w.createdBy, w.phase, w.hasIdentity, a))
  }

  predicate ToPrune(w: Tombstone, now: int, ttls: Ttls)
    reads w
  {
    IsDue(w.phase, w.legacy, w.created, w.stamps, now, ttls)
  }

  function PruneAll(items: seq<Tombstone>, now: int, ttls: Ttls, answers: seq<PruneAnswers>, st: PruneState): PruneState
    requires |answers| == |items|
    reads set w | w in items
  {
    if items == [] then st
    else
      var n := |items| - 1;
      var before := PruneAll(items[..n], now, ttls, answers[..n], st);
      if ToPrune(items[n], now, ttls) then Pruned(items[n], answers[n], before) else before
  }

  method PruneOne(w: Tombstone, a: PruneAnswers, cluster: Cluster, register: Register) returns (events: seq<PruneEvent>)
    modifies cluster, register`ready
    ensures PruneState(cluster.objects, register.ready, events) == Pruned(w, a, PruneState(old(cluster.objects), old(register.ready), []))
  {
    var raised := cluster.Delete(w.name, a.delete);
    events := [if raised then RemoveFailed(w.name) else Removed(w.name)];
    if w.phase == Failed {
      if a.parked == CheckRaised {
        events := events + [ParkedCheckFailed(w.name)];
      }
      if a.parked == Parked {
        events := events + [LeftParked(w.name)];
        return;
      }
      if w.createdBy != IssueBridge || !w.hasIdentity {
        events := events + [ResetSkipped(w.name)];
        return;
      }
      var resetRaised := register.ToReady(w.issue, a.reset);
      events := events + [if resetRaised then ResetFailed(w.name) else ResetDone(w.name)];
    }
  }

  /** `prune_workloads`. */
  method PruneWorkloads(
    items: seq<Tombstone>, now: int, ttls: Ttls, answers: seq<PruneAnswers>, cluster: Cluster, register: Register)
    returns (events: seq<PruneEvent>)
    requires |answers| == |items|
    modifies cluster, register`ready
    ensures PruneState(cluster.objects, register.ready, events)
      == PruneAll(items, now, ttls, answers, PruneState(old(cluster.objects), old(register.ready), []))
  {
    ghost var start := PruneState(cluster.objects, register.ready, []);
    events := [];
    for i := 0 to |items|
      invariant PruneState(cluster.objects, register.ready, events) == PruneAll(items[..i], now, ttls, answers[..i], start)
    {
      var w, a := items[i], answers[i];
      assert items[..i + 1][..i] == items[..i] && answers[..i + 1][..i] == answers[..i];
      if ToPrune(w, now, ttls) {
        var mine := PruneOne(w, a, cluster, register);
        events := events + mine;
      }
    }
    assert items[..|items|] == items && answers[..|answers|] == answers;
  }

  function NamesIn(events: seq<PruneEvent>): set<string> {
    set e | e in events :: e.name
  }

  /** A parked issue is never reset, a finished one neither; any other failed issue is, even if its Workload is still there. */
  lemma ResetExactly(w: Tombstone, a: PruneAnswers, st: PruneState)
    requires w.issue !in st.ready && w.name !in NamesIn(st.events)
    ensures var after := Pruned(w, a, st);
      var resets := w.phase == Failed && a.parked in {NotParked, CheckRaised} && w.createdBy == IssueBridge && w.hasIdentity;
      && (w.issue in after.ready <==> resets && a.reset.landed)
      && (ResetDone(w.name) in after.events <==> resets && a.reset.reply != Raises)
      && (ResetFailed(w.name) in after.events <==> resets && a.reset.reply == Raises)
      && (LeftParked(w.name) in after.events <==> w.phase == Failed && a.parked == Parked)
      && (w.name in after.objects <==> w.name in st.objects && a.delete == RaisedKept)
  {
  }

  // ----- One tick of the clock over the cluster

  predicate DistinctTombstones(items: seq<Tombstone>) {
    forall i, j :: 0 <= i < j < |items| ==> items[i] != items[j] && items[i].name != items[j].name
  }

  /** A name leaves the cluster exactly when its own tombstone is due and its delete takes effect. */
  lemma {:induction false} LeavesWhenDue(
    items: seq<Tombstone>, now: int, ttls: Ttls, answers: seq<PruneAnswers>, st: PruneState, i: nat)
    requires |answers| == |items| && DistinctTombstones(items) && i < |items|
    ensures items[i].name in PruneAll(items, now, ttls, answers, st).objects <==>
      items[i].name in st.objects && !(ToPrune(items[i], now, ttls) && answers[i].delete != RaisedKept)
  {
    var n := |items| - 1;
    if i < n {
      LeavesWhenDue(items[..n], now, ttls, answers[..n], st, i);
    } else {
      OthersStay(items[..n], now, ttls, answers[..n], st, items[n].name);
    }
  }

  lemma {:induction false} OthersStay(
    items: seq<Tombstone>, now: int, ttls: Ttls, answers: seq<PruneAnswers>, st: PruneState, n: string)
    requires |answers| == |items| && forall i :: 0 <= i < |items| ==> items[i].name != n
    ensures var after := PruneAll(items, now, ttls, answers, st);
      (n in after.objects <==> n in st.objects) && (n in st.objects ==> after.objects[n] == st.objects[n])
  {
    if items != [] {
      OthersStay(items[..|items| - 1], now, ttls, answers[..|items| - 1], st, n);
    }
  }

  /**
   * The whole prune of a tick. With both TTLs off nothing is listed, so nothing is stamped; otherwise every tombstone is
   * stamped by `_list_terminal_candidates` and leaves the cluster when its clock says so.
   */
  method StampThenPrune(
    check: int, items: seq<Tombstone>, nows: seq<int>, patches: seq<PatchReply>, ttls: Ttls, answers: seq<PruneAnswers>,
    cluster: Cluster, register: Register)
    returns (events: seq<PruneEvent>)
    requires |answers| == |nows| == |patches| == |items| && DistinctTombstones(items)
    modifies (set w | w in items), cluster, register`ready
    ensures ttls.completed > 0 || ttls.failed > 0 ==> forall i :: 0 <= i < |items| ==>
      items[i].stamps == InMemory(old(items[i].stamps), items[i].phase, nows[i], patches[i])
    ensures ttls.completed > 0 || ttls.failed > 0 ==> forall i :: 0 <= i < |items| ==>
      (items[i].name in cluster.objects <==>
        items[i].name in old(cluster.objects) && !(ToPrune(items[i], check, ttls) && answers[i].delete != RaisedKept))
    ensures ttls.completed <= 0 && ttls.failed <= 0 ==> events == [] && unchanged(cluster, register) && forall w :: w in items ==> unchanged(w)
  {
    if !Listing(ttls) {
      return [];
    }
    for i := 0 to |items|
      invariant forall j :: 0 <= j < i ==> items[j].stamps == InMemory(old(items[j].stamps), items[j].phase, nows[j], patches[j])
      invariant forall j :: i <= j < |items| ==> items[j].stamps == old(items[j].stamps)
      invariant cluster.objects == old(cluster.objects)
    {
      items[i].StampAndPatch(nows[i], patches[i]);
    }
    ghost var start := PruneState(cluster.objects, register.ready, []);
    events := PruneWorkloads(items, check, ttls, answers, cluster, register);
    forall i | 0 <= i < |items|
      ensures items[i].name in cluster.objects <==>
        items[i].name in start.objects && !(ToPrune(items[i], check, ttls) && answers[i].delete != RaisedKept)
    {
      LeavesWhenDue(items, check, ttls, answers, start, i);
    }
  }

  /** On tick k of a clock, the tombstone it belongs to is due exactly when the clock attempts the delete. */
  lemma DueByItsClock(c: Clock, w: Tombstone, ttls: Ttls, k: nat)
    requires Runs(c) && k < |c.nows| && w.phase == c.phase && w.legacy == c.legacy && w.created == c.created
    requires w.stamps == InMemory(StoredAt(c, k), c.phase, c.nows[k], c.patches[k])
    ensures ToPrune(w, c.checks[k], ttls) <==> Attempts(c, ttls, k)
  {
  }
}
