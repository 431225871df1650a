/** When the capacity check made before a claim speaks for the coder picked after it. */
module Saturation {
  import opened Outcomes
  import opened Workloads
  import opened Coders

  /** A list entry never holds an empty name. */
  predicate TidyEntry(value: Agents) {
    value.Many? ==> "" !in value.names
  }

  /** The entry that decides: the first tier that lists anybody, or the default coder. */
  function Settled(tiers: seq<Option<Agents>>): Agents {
    if tiers == [] then One(DEFAULT_CODER)
    else if tiers[0].Some? && Truthy(tiers[0].value) then tiers[0].value
    else Settled(tiers[1..])
  }

  function Deciding(lane: string, language: Option<string>, repo: string, routing: Routing): Agents {
    Settled(Tiers(lane, language, repo, routing))
  }

  /** The entries looked at up to the deciding one are tidy. */
  predicate TidyTiers(tiers: seq<Option<Agents>>) {
    tiers == [] ||
    ((tiers[0].Some? ==> TidyEntry(tiers[0].value)) && ((tiers[0].Some? && Truthy(tiers[0].value)) || TidyTiers(tiers[1..])))
  }

  predicate Tidy(lane: string, language: Option<string>, repo: string, routing: Routing) {
    TidyTiers(Tiers(lane, language, repo, routing))
  }

  lemma ChosenIsListed(value: Agents, issue: int, load: Load, slots: Slots)
    requires TidyEntry(value)
    ensures var picked := Choose(Some(value), issue, load, slots, {});
      && (Named(picked) <==> Truthy(value))
      && (picked.Some? ==> picked.value in Entries(value))
  {
    if value.Many? && value.names != [] {
      var e := Eligible(value.names, load, slots);
      assert e[issue % |e|] in e;
    }
  }

  /** Without fix-first agents the deciding entry does not depend on the load. */
  lemma {:induction false} SettledDecides(tiers: seq<Option<Agents>>, issue: int, load: Load, slots: Slots)
    requires TidyTiers(tiers)
    ensures Truthy(Settled(tiers)) && TidyEntry(Settled(tiers))
    ensures Choose(Some(Settled(tiers)), issue, load, slots, {}) == Some(FirstNamed(Choices(tiers, issue, load, slots, {})))
  {
    if tiers != [] {
      var choices := Choices(tiers, issue, load, slots, {});
      assert choices[1..] == Choices(tiers[1..], issue, load, slots, {});
      if tiers[0].Some? {
        ChosenIsListed(tiers[0].value, issue, load, slots);
      }
      if !Named(choices[0]) {
        SettledDecides(tiers[1..], issue, load, slots);
      }
    }
  }

  lemma CoderIsSettled(lane: string, language: Option<string>, repo: string, issue: int, routing: Routing, load: Load, slots: Slots)
    requires Tidy(lane, language, repo, routing)
    ensures var entry := Deciding(lane, language, repo, routing);
      && Choose(Some(entry), issue, load, slots, {}) == Some(CoderFor(lane, language, repo, issue, routing, load, slots, {}))
      && CoderFor(lane, language, repo, issue, routing, load, slots, {}) in Entries(entry)
      && Truthy(entry)
  {
    SettledDecides(Tiers(lane, language, repo, routing), issue, load, slots);
    ChosenIsListed(Deciding(lane, language, repo, routing), issue, load, slots);
  }

  /** The agents the check looks at. */
  function Checked(lane: string, laneAgents: AgentMap): seq<string> {
    var entry: Option<Agents> := if lane in laneAgents then Some(laneAgents[lane]) else Get(laneAgents, WILDCARD);
    if entry.None? then [] else Entries(entry.value)
  }

  lemma CheckedAreCandidates(lane: string, laneAgents: AgentMap, load: Load, slots: Slots)
    ensures Candidates(lane, laneAgents, load, slots, {}) == Checked(lane, laneAgents)
  {
  }

  /** With this load, passing the check means that the coder picked has a free slot. */
  predicate CheckHolds(
    lane: string, language: Option<string>, repo: string, issue: int, routing: Routing, slots: Slots, load: Load)
  {
    Saturated(Candidates(lane, routing.lane, load, slots, {}), load, slots) ||
    FreeSlots(CoderFor(lane, language, repo, issue, routing, load, slots, {}), load, slots) > 0
  }

  /** The check looks at somebody, and at nobody the deciding entry does not list. */
  predicate Covered(lane: string, language: Option<string>, repo: string, routing: Routing) {
    var checked := Checked(lane, routing.lane);
    checked != [] && forall a :: a in checked ==> a in Entries(Deciding(lane, language, repo, routing))
  }

  /** A load that fills the agents of a list and nobody else. */
  function Filled(agents: seq<string>, slots: Slots): Load {
    map a | a in agents :: SlotsFor(a, slots)
  }

  lemma FilledIsFull(agents: seq<string>, slots: Slots, a: string)
    ensures a in agents ==> FreeSlots(a, Filled(agents, slots), slots) == 0
    ensures a !in agents ==> FreeSlots(a, Filled(agents, slots), slots) > 0
  {
  }

  lemma CoveredHolds(
    lane: string, language: Option<string>, repo: string, issue: int, routing: Routing, slots: Slots, load: Load)
    requires slots != map[] && Tidy(lane, language, repo, routing) && Covered(lane, language, repo, routing)
    ensures CheckHolds(lane, language, repo, issue, routing, slots, load)
  {
    var entry := Deciding(lane, language, repo, routing);
    CheckedAreCandidates(lane, routing.lane, load, slots);
    CoderIsSettled(lane, language, repo, issue, routing, load, slots);
    if !Saturated(Checked(lane, routing.lane), load, slots) {
      var open :| open in Checked(lane, routing.lane) && FreeSlots(open, load, slots) > 0;
      assert open in Entries(entry);
      ChosenHasFreeSlot(entry, issue, load, slots, {});
    }
  }

  /** Filling the deciding entry passes a check that is not covered by it, and still routes to a full coder. */
  lemma UncoveredEscapes(lane: string, language: Option<string>, repo: string, issue: int, routing: Routing, slots: Slots)
    requires slots != map[] && Tidy(lane, language, repo, routing) && !Covered(lane, language, repo, routing)
    ensures !CheckHolds(lane, language, repo, issue, routing, slots, Filled(Entries(Deciding(lane, language, repo, routing)), slots))
  {
    var agents := Entries(Deciding(lane, language, repo, routing));
    var load := Filled(agents, slots);
    CheckedAreCandidates(lane, routing.lane, load, slots);
    CoderIsSettled(lane, language, repo, issue, routing, load, slots);
    FilledIsFull(agents, slots, CoderFor(lane, language, repo, issue, routing, load, slots, {}));
    if Checked(lane, routing.lane) != [] {
      var a :| a in Checked(lane, routing.lane) && a !in agents;
      FilledIsFull(agents, slots, a);
    }
  }

  /** The check before a claim is enough for every load exactly when it covers only the entry that decides. */
  lemma CheckSufficesExactly(lane: string, language: Option<string>, repo: string, issue: int, routing: Routing, slots: Slots)
    requires slots != map[] && Tidy(lane, language, repo, routing)
    ensures (forall load :: CheckHolds(lane, language, repo, issue, routing, slots, load)) <==> Covered(lane, language, repo, routing)
  {
    if Covered(lane, language, repo, routing) {
      forall load ensures CheckHolds(lane, language, repo, issue, routing, slots, load) {
        CoveredHolds(lane, language, repo, issue, routing, slots, load);
      }
    } else {
      UncoveredEscapes(lane, language, repo, issue, routing, slots);
    }
  }

  /** A lane mapped by its own id, or by the wildcard with no role entry in the way, is covered. */
  lemma LaneTierIsCovered(lane: string, language: Option<string>, repo: string, routing: Routing)
    requires LaneTierDecides(lane, routing) && WellMapped(routing.lane)
    ensures Tidy(lane, language, repo, routing) && Covered(lane, language, repo, routing)
  {
    var entry := if lane in routing.lane then routing.lane[lane] else routing.lane[WILDCARD];
    assert NamesNonEmpty(entry);
    assert Tiers(lane, language, repo, routing)[0] == Some(entry);
  }

  // ----- Which coders a lane can reach at all

  predicate Lists(agents: AgentMap, a: string) {
    exists key :: key in agents && a in Entries(agents[key])
  }

  /** Some repo, language, issue and load may bring the lane's work to a. */
  predicate CanReach(lane: string, routing: Routing, a: string) {
    || a == DEFAULT_CODER || Lists(routing.repo, a) || Lists(routing.language, a)
    || (WILDCARD in routing.lane && a in Entries(routing.lane[WILDCARD]))
    || (var entry := Lookup(routing.lane, routing.roles, lane); entry.Some? && a in Entries(entry.value))
  }

  predicate ListedIn(tiers: seq<Option<Agents>>, a: string) {
    exists i :: 0 <= i < |tiers| && tiers[i].Some? && a in Entries(tiers[i].value)
  }

  lemma {:induction false} PickIsListed(tiers: seq<Option<Agents>>, issue: int, load: Load, slots: Slots, fixFirst: set<string>)
    ensures var picked := FirstNamed(Choices(tiers, issue, load, slots, fixFirst)); picked == DEFAULT_CODER || ListedIn(tiers, picked)
  {
    if tiers != [] {
      var choices := Choices(tiers, issue, load, slots, fixFirst);
      assert choices[1..] == Choices(tiers[1..], issue, load, slots, fixFirst);
      if Named(choices[0]) {
        PickIsInEntry(tiers[0].value, issue, load, slots, fixFirst);
        assert tiers[0].Some? && choices[0].value in Entries(tiers[0].value);
      } else {
        PickIsListed(tiers[1..], issue, load, slots, fixFirst);
        var picked := FirstNamed(choices);
        if picked != DEFAULT_CODER {
          var i :| 0 <= i < |tiers| - 1 && tiers[1..][i].Some? && picked in Entries(tiers[1..][i].value);
          assert tiers[i + 1] == tiers[1..][i];
        }
      }
    }
  }

  lemma PickIsInEntry(value: Agents, issue: int, load: Load, slots: Slots, fixFirst: set<string>)
    ensures var picked := Choose(Some(value), issue, load, slots, fixFirst); picked.Some? ==> picked.value in Entries(value)
  {
    if value.Many? {
      var kept := Kept(value.names, fixFirst, load, slots);
      if kept != [] {
        var e := Eligible(kept, load, slots);
        assert e[issue % |e|] in e;
      }
    }
  }

  /** Whatever the load, capacities and fix-first agents, work only goes to a coder the lane can reach. */
  lemma CoderIsReachable(
    lane: string, language: Option<string>, repo: string, issue: int, routing: Routing, load: Load, slots: Slots, fixFirst: set<string>)
    ensures CanReach(lane, routing, CoderFor(lane, language, repo, issue, routing, load, slots, fixFirst))
  {
    var tiers := Tiers(lane, language, repo, routing);
    PickIsListed(tiers, issue, load, slots, fixFirst);
    var picked := CoderFor(lane, language, repo, issue, routing, load, slots, fixFirst);
    if picked != DEFAULT_CODER {
      var i :| 0 <= i < |tiers| && tiers[i].Some? && picked in Entries(tiers[i].value);
      assert i == 1 ==> Lists(routing.repo, picked);
      assert i == 2 ==> Lists(routing.language, picked);
    }
  }
}
