/** Which coder Agent a lane's work goes to, and when that coder still has a free slot. */
module Coders {
  import opened Outcomes
  import opened Workloads

  const WILDCARD := "*"
  const DEFAULT_CODER := "coder"

  /** A map entry is one Agent name or a list of them. */
  datatype Agents = One(name: string) | Many(names: seq<string>)

  type AgentMap = map<string, Agents>

  /** Declared capacities; None is a value that is not a number. */
  type Slots = map<string, Option<int>>

  function Get<V>(m: map<string, V>, key: string): Option<V> {
    if key in m then Some(m[key]) else None
  }

  function SlotsFor(agent: string, slots: Slots): (n: nat)
    ensures n >= 1
  {
    var raw := if agent in slots then slots[agent] else if WILDCARD in slots then slots[WILDCARD] else Some(1);
    match raw
    case Some(value) => if value > 0 then value else 1
    case None => 1
  }

  function FreeSlots(agent: string, load: Load, slots: Slots): int {
    SlotsFor(agent, slots) - Held(load, agent)
  }

  /** A coder's load is no higher than it started, or no higher than its slots. */
  predicate WithinSlots(start: Load, load: Load, slots: Slots, a: string) {
    Held(load, a) <= Held(start, a) || Held(load, a) <= SlotsFor(a, slots)
  }

  // ----- Fix-first agents

  /** A fix-first agent stays in the rotation only while it holds nothing and has a slot. */
  predicate StaysIn(agent: string, fixFirst: set<string>, load: Load, slots: Slots) {
    agent in fixFirst ==> Held(load, agent) == 0 && (slots == map[] || FreeSlots(agent, load, slots) > 0)
  }

  function Kept(agents: seq<string>, fixFirst: set<string>, load: Load, slots: Slots): (kept: seq<string>)
    ensures forall a :: a in kept <==> a in agents && StaysIn(a, fixFirst, load, slots)
    ensures fixFirst == {} ==> kept == agents
  {
    if agents == [] then []
    else
      var last := agents[|agents| - 1];
      assert agents == agents[..|agents| - 1] + [last];
      Kept(agents[..|agents| - 1], fixFirst, load, slots) + (if StaysIn(last, fixFirst, load, slots) then [last] else [])
  }

  /** `filter_fix_first`. */
  method FilterFixFirst(candidates: seq<string>, fixFirst: set<string>, load: Load, slots: Slots)
    returns (kept: seq<string>)
    ensures kept == Kept(candidates, fixFirst, load, slots)
  {
    if fixFirst == {} || candidates == [] {
      return candidates;
    }
    kept := [];
    for i := 0 to |candidates|
      invariant kept == Kept(candidates[..i], fixFirst, load, slots)
    {
      var agent := candidates[i];
      assert candidates[..i + 1][..i] == candidates[..i];
      if agent !in fixFirst {
        kept := kept + [agent];
        continue;
      }
      if Held(load, agent) > 0 {
        continue;
      }
      if slots != map[] && FreeSlots(agent, load, slots) <= 0 {
        continue;
      }
      kept := kept + [agent];
    }
    assert candidates[..|candidates|] == candidates;
  }

  function Entries(value: Agents): seq<string> {
    match value
    case One(name) => [name]
    case Many(names) => names
  }

  /** `coder_candidates`: the lane's own entry, else the wildcard, after the fix-first filter. */
  function Candidates(lane: string, laneAgents: AgentMap, load: Load, slots: Slots, fixFirst: set<string>): seq<string> {
    var entry: Option<Agents> := if lane in laneAgents then Some(laneAgents[lane]) else Get(laneAgents, WILDCARD);
    if entry.None? then [] else Kept(Entries(entry.value), fixFirst, load, slots)
  }

  /** `coders_saturated`. */
  predicate Saturated(candidates: seq<string>, load: Load, slots: Slots) {
    slots != map[] && candidates != [] && forall a :: a in candidates ==> FreeSlots(a, load, slots) <= 0
  }

  // ----- Choosing from a list

  function MaxFree(agents: seq<string>, load: Load, slots: Slots): int
    requires agents != []
  {
    var n := |agents| - 1;
    var last := FreeSlots(agents[n], load, slots);
    if n == 0 then last
    else
      var rest := MaxFree(agents[..n], load, slots);
      if last > rest then last else rest
  }

  lemma {:induction false} NoneAboveMax(agents: seq<string>, load: Load, slots: Slots, i: nat)
    requires i < |agents|
    ensures FreeSlots(agents[i], load, slots) <= MaxFree(agents, load, slots)
    decreases |agents|
  {
    if i < |agents| - 1 {
      NoneAboveMax(agents[..|agents| - 1], load, slots, i);
    }
  }

  lemma {:induction false} MaxIsAttained(agents: seq<string>, load: Load, slots: Slots) returns (i: nat)
    requires agents != []
    ensures i < |agents| && FreeSlots(agents[i], load, slots) == MaxFree(agents, load, slots)
  {
    i := |agents| - 1;
    if i > 0 && FreeSlots(agents[i], load, slots) <= MaxFree(agents[..i], load, slots) {
      i := MaxIsAttained(agents[..i], load, slots);
    }
  }

  lemma MaxFreeIsMaximum(agents: seq<string>, load: Load, slots: Slots)
    requires agents != []
    ensures forall a :: a in agents ==> FreeSlots(a, load, slots) <= MaxFree(agents, load, slots)
    ensures exists a :: a in agents && FreeSlots(a, load, slots) == MaxFree(agents, load, slots)
  {
    forall a | a in agents ensures FreeSlots(a, load, slots) <= MaxFree(agents, load, slots) {
      var i :| 0 <= i < |agents| && agents[i] == a;
      NoneAboveMax(agents, load, slots, i);
    }
    var k := MaxIsAttained(agents, load, slots);
    assert agents[k] in agents;
  }

  function Tied(agents: seq<string>, best: int, load: Load, slots: Slots): (tied: seq<string>)
    ensures forall a :: a in tied <==> a in agents && FreeSlots(a, load, slots) == best
    ensures (exists a :: a in agents && FreeSlots(a, load, slots) == best) ==> tied != []
  {
    if agents == [] then []
    else
      var n := |agents| - 1;
      assert agents == agents[..n] + [agents[n]];
      Tied(agents[..n], best, load, slots) + (if FreeSlots(agents[n], load, slots) == best then [agents[n]] else [])
  }

  /** The idlest agents of a list, or the whole list when no capacity is declared. */
  function Eligible(agents: seq<string>, load: Load, slots: Slots): (e: seq<string>)
    requires agents != []
    ensures e != [] && forall a :: a in e ==> a in agents
  {
    if slots == map[] then agents else
      MaxFreeIsMaximum(agents, load, slots);
      var best := MaxFree(agents, load, slots);
      var tied := Tied(agents, best, load, slots);
      assert tied != [];
      tied
  }

  function Choose(value: Option<Agents>, issue: int, load: Load, slots: Slots, fixFirst: set<string>): Option<string> {
    match value
    case None => None
    case Some(One(name)) => Some(name)
    case Some(Many(names)) =>
      var kept := Kept(names, fixFirst, load, slots);
      if kept == [] then None
      else
        var e := Eligible(kept, load, slots);
        Some(e[issue % |e|])
  }

  /** The fix-first filter written out again inside `_pick_coder`; it agrees with `filter_fix_first`. */
  method DropBusyFixFirst(names: seq<string>, fixFirst: set<string>, load: Load, slots: Slots)
    returns (kept: seq<string>)
    ensures kept == Kept(names, fixFirst, load, slots)
  {
    kept := [];
    for i := 0 to |names|
      invariant kept == Kept(names[..i], fixFirst, load, slots)
    {
      assert names[..i + 1][..i] == names[..i];
      if names[i] in fixFirst {
        if Held(load, names[i]) > 0 {
          continue;
        }
        if slots != map[] && FreeSlots(names[i], load, slots) <= 0 {
          continue;
        }
      }
      kept := kept + [names[i]];
    }
    assert names[..|names|] == names;
  }

  method HighestFree(names: seq<string>, load: Load, slots: Slots) returns (best: int)
    requires names != []
    ensures best == MaxFree(names, load, slots)
  {
    best := FreeSlots(names[0], load, slots);
    for i := 1 to |names|
      invariant best == MaxFree(names[..i], load, slots)
    {
      assert names[..i + 1][..i] == names[..i];
      var free := FreeSlots(names[i], load, slots);
      if free > best {
        best := free;
      }
    }
    assert names[..|names|] == names;
  }

  method AgentsFreeBy(names: seq<string>, best: int, load: Load, slots: Slots) returns (tied: seq<string>)
    ensures tied == Tied(names, best, load, slots)
  {
    tied := [];
    for i := 0 to |names|
      invariant tied == Tied(names[..i], best, load, slots)
    {
      assert names[..i + 1][..i] == names[..i];
      if FreeSlots(names[i], load, slots) == best {
        tied := tied + [names[i]];
      }
    }
    assert names[..|names|] == names;
  }

  /** `_pick_coder`. */
  method PickCoder(value: Option<Agents>, issue: int, load: Load, slots: Slots, fixFirst: set<string>)
    returns (picked: Option<string>)
    ensures picked == Choose(value, issue, load, slots, fixFirst)
  {
    if value.None? {
      return None;
    }
    if value.value.One? {
      return Some(value.value.name);
    }
    var names := value.value.names;
    if names == [] {
      return None;
    }
    if fixFirst != {} {
      names := DropBusyFixFirst(names, fixFirst, load, slots);
      if names == [] {
        return None;
      }
    }
    if slots == map[] {
      return Some(names[issue % |names|]);
    }
    MaxFreeIsMaximum(names, load, slots);
    var best := HighestFree(names, load, slots);
    var tied := AgentsFreeBy(names, best, load, slots);
    picked := Some(tied[issue % |tied|]);
  }

  /** With slots, a list resolves to a kept agent that no other kept agent beats on free capacity. */
  lemma ChosenIsIdlest(names: seq<string>, issue: int, load: Load, slots: Slots, fixFirst: set<string>, picked: string)
    requires slots != map[] && Choose(Some(Many(names)), issue, load, slots, fixFirst) == Some(picked)
    ensures picked in names && StaysIn(picked, fixFirst, load, slots)
    ensures forall a :: a in names && StaysIn(a, fixFirst, load, slots) ==>
      FreeSlots(a, load, slots) <= FreeSlots(picked, load, slots)
  {
    var kept := Kept(names, fixFirst, load, slots);
    MaxFreeIsMaximum(kept, load, slots);
    var e := Eligible(kept, load, slots);
    assert e[issue % |e|] in e;
  }

  /** An unsaturated, non-empty list yields a coder with a free slot. */
  lemma ChosenHasFreeSlot(value: Agents, issue: int, load: Load, slots: Slots, fixFirst: set<string>)
    requires slots != map[]
    requires Kept(Entries(value), fixFirst, load, slots) != []
    requires !Saturated(Kept(Entries(value), fixFirst, load, slots), load, slots)
    ensures var picked := Choose(Some(value), issue, load, slots, fixFirst);
      picked.Some? && FreeSlots(picked.value, load, slots) > 0
  {
    match value
    case One(name) =>
    case Many(names) =>
      var kept := Kept(names, fixFirst, load, slots);
      var open :| open in kept && FreeSlots(open, load, slots) > 0;
      var picked := Choose(Some(value), issue, load, slots, fixFirst).value;
      ChosenIsIdlest(names, issue, load, slots, fixFirst, picked);
  }

  // ----- Resolving a lane

  type Roles = map<string, string>

  /** A lane-keyed map answers by lane id, then by the lane's role, then by the wildcard. */
  function Lookup<V>(mapping: map<string, V>, roles: Roles, lane: string): Option<V> {
    if lane != "" && lane in mapping then Some(mapping[lane])
    else if lane != "" && lane in roles && roles[lane] != "" && roles[lane] in mapping then Some(mapping[roles[lane]])
    else Get(mapping, WILDCARD)
  }

  /** The tiers of agent maps a coder is resolved from. */
  datatype Routing = Routing(lane: AgentMap, repo: AgentMap, language: AgentMap, roles: Roles)

  predicate Named(picked: Option<string>) {
    picked.Some? && picked.value != ""
  }

  /** The entries a coder is looked for in, in order of precedence. */
  function Tiers(lane: string, language: Option<string>, repo: string, routing: Routing): seq<Option<Agents>> {
    [Lookup(routing.lane, routing.roles, lane),
     if repo == "" then None else Get(routing.repo, repo),
     LanguageEntry(routing.language, language),
     Get(routing.lane, WILDCARD)]
  }

  /** picked is the first choice that names anybody, or the default coder. */
  predicate IsFirstNamed(choices: seq<Option<string>>, picked: string) {
    if exists i :: 0 <= i < |choices| && Named(choices[i]) then
      exists i :: 0 <= i < |choices| && choices[i] == Some(picked) && picked != "" && forall j :: 0 <= j < i ==> !Named(choices[j])
    else picked == DEFAULT_CODER
  }

  function FirstNamed(choices: seq<Option<string>>): (picked: string)
    ensures picked != ""
  {
    if choices == [] then DEFAULT_CODER
    else if Named(choices[0]) then choices[0].value
    else FirstNamed(choices[1..])
  }

  lemma {:induction false} FirstNamedIsFirst(choices: seq<Option<string>>)
    ensures IsFirstNamed(choices, FirstNamed(choices))
  {
    if choices != [] && !Named(choices[0]) {
      FirstNamedIsFirst(choices[1..]);
      assert forall i :: 0 < i < |choices| ==> choices[i] == choices[1..][i - 1];
      if k :| 0 <= k < |choices| && Named(choices[k]) {
        assert Named(choices[1..][k - 1]);
        var i :| 0 <= i < |choices| - 1 && choices[1..][i] == Some(FirstNamed(choices))
          && forall j :: 0 <= j < i ==> !Named(choices[1..][j]);
        assert choices[i + 1] == Some(FirstNamed(choices));
      }
    }
  }

  function Choices(tiers: seq<Option<Agents>>, issue: int, load: Load, slots: Slots, fixFirst: set<string>): seq<Option<string>> {
    seq(|tiers|, i requires 0 <= i < |tiers| => Choose(tiers[i], issue, load, slots, fixFirst))
  }

  /** `coder_agent_for`: the first tier that names anybody. */
  function CoderFor(
    lane: string, language: Option<string>, repo: string, issue: int, routing: Routing,
    load: Load, slots: Slots, fixFirst: set<string>): (coder: string)
    ensures coder != ""
    ensures IsFirstNamed(Choices(Tiers(lane, language, repo, routing), issue, load, slots, fixFirst), coder)
  {
    var choices := Choices(Tiers(lane, language, repo, routing), issue, load, slots, fixFirst);
    FirstNamedIsFirst(choices);
    FirstNamed(choices)
  }

  function LanguageEntry(byLanguage: AgentMap, language: Option<string>): Option<Agents> {
    if language.Some? && language.value in byLanguage && Truthy(byLanguage[language.value])
    then Some(byLanguage[language.value])
    else Get(byLanguage, WILDCARD)
  }

  predicate Truthy(value: Agents) {
    match value case One(name) => name != "" case Many(names) => names != []
  }

  /** The lane is mapped by its own id, or by the wildcard with no role entry in the way. */
  predicate LaneTierDecides(lane: string, routing: Routing) {
    && lane != ""
    && (lane in routing.lane || (WILDCARD in routing.lane && (lane in routing.roles ==> routing.roles[lane] !in routing.lane)))
  }

  predicate NamesNonEmpty(value: Agents) {
    match value
    case One(name) => name != ""
    case Many(names) => names != [] && "" !in names
  }

  /** Every lane entry lists at least one agent and no empty name. */
  predicate WellMapped(laneAgents: AgentMap) {
    forall key :: key in laneAgents ==> NamesNonEmpty(laneAgents[key])
  }

  /** When the lane tier decides, the pre-claim saturation check is enough: the coder picked after the claim has a slot. */
  lemma UnsaturatedLaneHasSlot(
    lane: string, language: Option<string>, repo: string, issue: int, routing: Routing, load: Load, slots: Slots)
    requires slots != map[] && LaneTierDecides(lane, routing) && WellMapped(routing.lane)
    requires !Saturated(Candidates(lane, routing.lane, load, slots, {}), load, slots)
    ensures FreeSlots(CoderFor(lane, language, repo, issue, routing, load, slots, {}), load, slots) > 0
  {
    var entry := if lane in routing.lane then routing.lane[lane] else routing.lane[WILDCARD];
    assert Lookup(routing.lane, routing.roles, lane) == Some(entry);
    assert NamesNonEmpty(entry);
    ChosenHasFreeSlot(entry, issue, load, slots, {});
    match entry
    case One(name) =>
    case Many(names) =>
      var picked := Choose(Some(entry), issue, load, slots, {}).value;
      ChosenIsIdlest(names, issue, load, slots, {}, picked);
      assert picked != "";
  }

  /** The saturation check cannot see the role tier: a lane whose wildcard coder is idle may still route to a full one. */
  lemma RoleTierEscapesCheck(name: string, load: Load)
    requires Held(load, "big") >= 1 && Held(load, "small") == 0
    ensures var routing := Routing(map["*" := One("small"), "escalation" := One("big")], map[], map[], map["frontier" := "escalation"]);
      var slots: Slots := map["*" := Some(1)];
      && !Saturated(Candidates("frontier", routing.lane, load, slots, {}), load, slots)
      && FreeSlots(CoderFor("frontier", None, name, 7, routing, load, slots, {}), load, slots) <= 0
  {
    assert "frontier" != "*" && "escalation" != "frontier" && |"frontier"| != |"escalation"|;
  }
}
