/** Which entry of the agent maps a lane's work is looked up under, and which agent of it an issue number picks. */
module Picks {
  import opened Outcomes
  import opened Workloads
  import opened Coders

  // ----- Looking an entry up

  /** The lane's own id goes before its role, and the role before the wildcard. */
  lemma LookupOrder<V>(mapping: map<string, V>, roles: Roles, lane: string)
    ensures lane != "" && lane in mapping ==> Lookup(mapping, roles, lane) == Some(mapping[lane])
    ensures lane != "" && lane !in mapping && lane in roles && roles[lane] != "" && roles[lane] in mapping ==>
      Lookup(mapping, roles, lane) == Some(mapping[roles[lane]])
    ensures lane == "" || (lane !in mapping && (lane !in roles || roles[lane] == "" || roles[lane] !in mapping)) ==>
      Lookup(mapping, roles, lane) == if "*" in mapping then Some(mapping["*"]) else None
  {
  }

  /** The lane's entry is followed by the repo's, the language's or its wildcard, and the lane wildcard. */
  lemma TiersAre(lane: string, language: Option<string>, repo: string, routing: Routing)
    ensures var tiers := Tiers(lane, language, repo, routing);
      && |tiers| == 4 && tiers[0] == Lookup(routing.lane, routing.roles, lane)
      && tiers[1] == (if repo != "" && repo in routing.repo then Some(routing.repo[repo]) else None)
      && (forall l :: language == Some(l) && l in routing.language && routing.language[l] !in {One(""), Many([])} ==>
        tiers[2] == Some(routing.language[l]))
      && ((language == None || language.value !in routing.language || routing.language[language.value] in {One(""), Many([])}) ==>
        tiers[2] == if "*" in routing.language then Some(routing.language["*"]) else None)
      && tiers[3] == (if "*" in routing.lane then Some(routing.lane["*"]) else None)
  {
  }

  // ----- Choosing from it

  /** Position i is in the draw: nobody has more free slots, where slots are declared at all. */
  predicate InDraw(agents: seq<string>, load: Load, slots: Slots, i: nat) {
    && i < |agents|
    && (slots == map[] || forall j :: 0 <= j < |agents| ==> FreeSlots(agents[j], load, slots) <= FreeSlots(agents[i], load, slots))
  }

  /** How many positions before n are in the draw. */
  function DrawnBefore(agents: seq<string>, load: Load, slots: Slots, n: nat): nat
    requires n <= |agents|
  {
    if n == 0 then 0 else DrawnBefore(agents, load, slots, n - 1) + (if InDraw(agents, load, slots, n - 1) then 1 else 0)
  }

  /** How many are in the draw altogether. */
  function DrawSize(agents: seq<string>, load: Load, slots: Slots): nat {
    DrawnBefore(agents, load, slots, |agents|)
  }

  lemma {:induction false} DrawnGrows(agents: seq<string>, load: Load, slots: Slots, m: nat, n: nat)
    requires m <= n <= |agents|
    ensures DrawnBefore(agents, load, slots, m) <= DrawnBefore(agents, load, slots, n)
  {
    if m < n {
      DrawnGrows(agents, load, slots, m, n - 1);
    }
  }

  lemma RankRises(agents: seq<string>, load: Load, slots: Slots, p: nat, q: nat)
    requires InDraw(agents, load, slots, p) && p < q <= |agents|
    ensures DrawnBefore(agents, load, slots, p) < DrawnBefore(agents, load, slots, q)
  {
    DrawnGrows(agents, load, slots, p + 1, q);
  }

  /** Positions in the draw are told apart by how many stand before them. */
  lemma {:induction false} RankTells(agents: seq<string>, load: Load, slots: Slots, p: nat, q: nat)
    requires InDraw(agents, load, slots, p) && InDraw(agents, load, slots, q)
    requires DrawnBefore(agents, load, slots, p) == DrawnBefore(agents, load, slots, q)
    ensures p == q
  {
    if p < q {
      RankRises(agents, load, slots, p, q);
    } else if q < p {
      RankRises(agents, load, slots, q, p);
    }
  }

  lemma RankBelowSize(agents: seq<string>, load: Load, slots: Slots, p: nat)
    requires InDraw(agents, load, slots, p)
    ensures DrawnBefore(agents, load, slots, p) < DrawSize(agents, load, slots)
  {
    RankRises(agents, load, slots, p, |agents|);
  }

  lemma {:induction false} AllDrawn(agents: seq<string>, load: Load, n: nat)
    requires n <= |agents|
    ensures DrawnBefore(agents, load, map[], n) == n
  {
    if n > 0 {
      AllDrawn(agents, load, n - 1);
    }
  }

  /** With slots, being in the draw is having the highest free capacity. */
  lemma DrawIsBest(agents: seq<string>, load: Load, slots: Slots, i: nat)
    requires slots != map[] && i < |agents|
    ensures InDraw(agents, load, slots, i) <==> FreeSlots(agents[i], load, slots) == MaxFree(agents, load, slots)
  {
    MaxFreeIsMaximum(agents, load, slots);
    var a :| a in agents && FreeSlots(a, load, slots) == MaxFree(agents, load, slots);
    var k :| 0 <= k < |agents| && agents[k] == a;
    assert agents[i] in agents;
    forall j | 0 <= j < |agents| ensures FreeSlots(agents[j], load, slots) <= MaxFree(agents, load, slots) {
      assert agents[j] in agents;
    }
  }

  lemma TiedSnoc(agents: seq<string>, best: int, load: Load, slots: Slots, n: nat)
    requires n < |agents|
    ensures Tied(agents[..n + 1], best, load, slots)
      == Tied(agents[..n], best, load, slots) + (if FreeSlots(agents[n], load, slots) == best then [agents[n]] else [])
  {
    assert agents[..n + 1][..n] == agents[..n];
  }

  /** The agents in the draw, in list order. */
  function Drawn(agents: seq<string>, load: Load, slots: Slots, n: nat): (drawn: seq<string>)
    requires n <= |agents|
    ensures |drawn| == DrawnBefore(agents, load, slots, n)
  {
    if n == 0 then []
    else Drawn(agents, load, slots, n - 1) + (if InDraw(agents, load, slots, n - 1) then [agents[n - 1]] else [])
  }

  /** They are the tied ones. */
  lemma {:induction false} DrawnAreTied(agents: seq<string>, load: Load, slots: Slots, n: nat)
    requires slots != map[] && agents != [] && n <= |agents|
    ensures Tied(agents[..n], MaxFree(agents, load, slots), load, slots) == Drawn(agents, load, slots, n)
  {
    if n > 0 {
      DrawnAreTied(agents, load, slots, n - 1);
      TiedSnoc(agents, MaxFree(agents, load, slots), load, slots, n - 1);
      DrawIsBest(agents, load, slots, n - 1);
    } else {
      assert agents[..0] == [];
    }
  }

  /** Some position of the draw has k others before it. */
  lemma {:induction false} AtRank(agents: seq<string>, load: Load, slots: Slots, n: nat, k: nat) returns (p: nat)
    requires n <= |agents| && k < DrawnBefore(agents, load, slots, n)
    ensures p < n && InDraw(agents, load, slots, p) && DrawnBefore(agents, load, slots, p) == k
  {
    p := n - 1;
    if k < DrawnBefore(agents, load, slots, n - 1) {
      p := AtRank(agents, load, slots, n - 1, k);
    }
  }

  /** They are listed by that rank. */
  lemma {:induction false} DrawnByRank(agents: seq<string>, load: Load, slots: Slots, n: nat, p: nat)
    requires p < n <= |agents| && InDraw(agents, load, slots, p)
    ensures DrawnBefore(agents, load, slots, p) < |Drawn(agents, load, slots, n)|
    ensures Drawn(agents, load, slots, n)[DrawnBefore(agents, load, slots, p)] == agents[p]
  {
    if p < n - 1 {
      DrawnByRank(agents, load, slots, n - 1, p);
    }
  }

  /** Among the kept agents with the most free slots, the issue number counts round the list. */
  lemma PickedInTurn(names: seq<string>, issue: int, load: Load, slots: Slots, fixFirst: set<string>) returns (p: nat)
    requires Kept(names, fixFirst, load, slots) != []
    ensures var kept := Kept(names, fixFirst, load, slots);
      && InDraw(kept, load, slots, p) && Choose(Some(Many(names)), issue, load, slots, fixFirst) == Some(kept[p])
      && DrawSize(kept, load, slots) > 0 && DrawnBefore(kept, load, slots, p) == issue % DrawSize(kept, load, slots)
  {
    var kept := Kept(names, fixFirst, load, slots);
    var e := Eligible(kept, load, slots);
    if slots == map[] {
      p := issue % |kept|;
      AllDrawn(kept, load, p);
      AllDrawn(kept, load, |kept|);
    } else {
      assert kept[..|kept|] == kept;
      DrawnAreTied(kept, load, slots, |kept|);
      p := AtRank(kept, load, slots, |kept|, issue % |e|);
      DrawnByRank(kept, load, slots, |kept|, p);
    }
  }

  /** Without slots and fix-first agents that is the plain split by issue number. */
  lemma PickedByNumber(names: seq<string>, issue: int, load: Load)
    requires names != []
    ensures Choose(Some(Many(names)), issue, load, map[], {}) == Some(names[issue % |names|])
  {
  }

  // ----- A fair share

  lemma ProductIsNat(d: nat, t: nat)
    ensures d * t >= 0
  {
  }

  lemma MultipleIsFar(d: int, t: int)
    requires t > 0 && d != 0
    ensures d * t >= t || d * t <= -t
  {
    if d > 0 {
      ProductIsNat(d - 1, t);
      assert d * t == (d - 1) * t + t;
    } else {
      ProductIsNat(-d - 1, t);
      assert d * t == -((-d - 1) * t + t);
    }
  }

  lemma SmallMultiple(d: int, t: int)
    requires t > 0 && -t < d * t < t
    ensures d == 0
  {
    if d != 0 {
      MultipleIsFar(d, t);
    }
  }

  lemma SameQuotient(p: int, r: int, q: int, s: int, t: int)
    requires 0 <= r < t && 0 <= s < t && p * t + r == q * t + s
    ensures p == q && r == s
  {
    assert (p - q) * t == s - r;
    SmallMultiple(p - q, t);
  }

  lemma RemainderIs(x: int, k: int, r: int, t: int)
    requires 0 <= r < t && x == k * t + r
    ensures x % t == r
  {
    SameQuotient(k, r, x / t, x % t, t);
  }

  /** One of t numbers in a row leaves the remainder r. */
  lemma RemainderReached(first: int, r: int, t: int) returns (j: int)
    requires 0 <= r < t
    ensures first <= j < first + t && j % t == r
  {
    var k, m := first / t, first % t;
    assert first == k * t + m && 0 <= m < t;
    if m <= r {
      j := first + (r - m);
      RemainderIs(j, k, r, t);
    } else {
      j := first + (t + r - m);
      assert (k + 1) * t == k * t + t;
      RemainderIs(j, k + 1, r, t);
    }
  }

  lemma SameInWindow(first: int, i: int, j: int, t: int)
    requires t > 0 && first <= i < first + t && first <= j < first + t && i % t == j % t
    ensures i == j
  {
    var p, q, r := i / t, j / t, i % t;
    assert i == p * t + r && j == q * t + r;
    assert (p - q) * t == i - j;
    SmallMultiple(p - q, t);
  }

  predicate Distinct(names: seq<string>) {
    forall i, j :: 0 <= i < j < |names| ==> names[i] != names[j]
  }

  lemma {:induction false} KeptAreDistinct(names: seq<string>, fixFirst: set<string>, load: Load, slots: Slots)
    requires Distinct(names)
    ensures Distinct(Kept(names, fixFirst, load, slots))
  {
    if names != [] {
      var front := names[..|names| - 1];
      KeptAreDistinct(front, fixFirst, load, slots);
      assert forall a :: a in Kept(front, fixFirst, load, slots) ==> a in front;
    }
  }

  /** As many issues in a row as there are agents in the draw reach every one of them, */
  lemma EachIsReached(names: seq<string>, first: int, load: Load, slots: Slots, fixFirst: set<string>, p: nat) returns (issue: int)
    requires InDraw(Kept(names, fixFirst, load, slots), load, slots, p)
    ensures first <= issue < first + DrawSize(Kept(names, fixFirst, load, slots), load, slots)
    ensures Choose(Some(Many(names)), issue, load, slots, fixFirst) == Some(Kept(names, fixFirst, load, slots)[p])
  {
    var kept := Kept(names, fixFirst, load, slots);
    RankBelowSize(kept, load, slots, p);
    issue := RemainderReached(first, DrawnBefore(kept, load, slots, p), DrawSize(kept, load, slots));
    var q := PickedInTurn(names, issue, load, slots, fixFirst);
    RankTells(kept, load, slots, p, q);
  }

  /** and none of them twice. */
  lemma NoneTwice(names: seq<string>, first: int, load: Load, slots: Slots, fixFirst: set<string>, i: int, j: int)
    requires Kept(names, fixFirst, load, slots) != [] && Distinct(names)
    requires var t := DrawSize(Kept(names, fixFirst, load, slots), load, slots); first <= i < first + t && first <= j < first + t
    requires Choose(Some(Many(names)), i, load, slots, fixFirst) == Choose(Some(Many(names)), j, load, slots, fixFirst)
    ensures i == j
  {
    var kept := Kept(names, fixFirst, load, slots);
    KeptAreDistinct(names, fixFirst, load, slots);
    var p := PickedInTurn(names, i, load, slots, fixFirst);
    var q := PickedInTurn(names, j, load, slots, fixFirst);
    assert p == q;
    SameInWindow(first, i, j, DrawSize(kept, load, slots));
  }
}
