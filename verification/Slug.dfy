/** The case-encoding Workload name: which repo names share one, and how to read a name back. */
module Slug {
  import opened Text
  import opened Outcomes

  predicate IsUpper(c: char) {
    'A' <= c <= 'Z'
  }

  function Lower(c: char): char {
    if IsUpper(c) then (c as int + 32) as char else c
  }

  function Upper(c: char): char {
    if 'a' <= c <= 'z' then (c as int - 32) as char else c
  }

  predicate IsU(c: char) {
    c == 'u' || c == 'U'
  }

  /** One character of the name written in front of the rest of the slug. */
  function Emit(c: char, rest: string): string {
    if IsUpper(c) then ['u'] + ([Lower(c)] + rest)
    else [if c == '/' then '-' else c] + rest
  }

  function SlugOf(repo: string): string {
    if repo == "" then "" else Emit(repo[0], SlugOf(repo[1..]))
  }

  lemma EmitConcat(c: char, r: string, s: string)
    ensures Emit(c, r) + s == Emit(c, r + s)
  {
    if IsUpper(c) {
      assert ['u'] + ([Lower(c)] + r) + s == ['u'] + ([Lower(c)] + (r + s));
    } else {
      var d := [if c == '/' then '-' else c];
      assert d + r + s == d + (r + s);
    }
  }

  lemma {:induction false} SlugOfPair(front: string, back: string)
    ensures SlugOf(front + back) == SlugOf(front) + SlugOf(back)
  {
    if front == "" {
      assert front + back == back;
    } else {
      assert (front + back)[1..] == front[1..] + back;
      SlugOfPair(front[1..], back);
      EmitConcat(front[0], SlugOf(front[1..]), SlugOf(back));
    }
  }

  /** The loop that builds the slug character by character. */
  method CasePreservingSlug(repo: string) returns (slug: string)
    ensures slug == SlugOf(repo)
  {
    slug := "";
    for i := 0 to |repo|
      invariant slug == SlugOf(repo[..i])
    {
      var ch := if repo[i] == '/' then '-' else repo[i];
      assert repo[..i + 1] == repo[..i] + [repo[i]];
      SlugOfPair(repo[..i], [repo[i]]);
      assert SlugOf([repo[i]]) == Emit(repo[i], "");
      if IsUpper(ch) {
        slug := slug + ['u'];
        slug := slug + [Lower(ch)];
      } else {
        slug := slug + [ch];
      }
    }
    assert repo[..|repo|] == repo;
  }

  function WorkloadName(repo: string, issueNumber: int): string {
    "wl-" + SlugOf(repo) + ("-" + IntText(issueNumber))
  }

  function BranchName(repo: string, issueNumber: int): string {
    "foreman/" + WorkloadName(repo, issueNumber) + "/issue-" + IntText(issueNumber)
  }

  // ----- Which case variants collide

  predicate SameUpToCase(a: string, b: string) {
    |a| == |b| && forall i :: 0 <= i < |a| ==> Lower(a[i]) == Lower(b[i])
  }

  function CapitalBit(c: char): nat {
    if IsUpper(c) then 1 else 0
  }

  /** How many capitals stand at positions lo to hi - 1. */
  function Capitals(s: string, lo: nat, hi: nat): nat
    requires lo <= hi <= |s|
  {
    if lo == hi then 0 else Capitals(s, lo, hi - 1) + CapitalBit(s[hi - 1])
  }

  /** [i, j) is a maximal, possibly empty, stretch of u/U that no u/U precedes. */
  predicate IsURun(s: string, i: nat, j: nat) {
    && i <= j <= |s|
    && (forall k :: i <= k < j ==> IsU(s[k]))
    && (i == 0 || !IsU(s[i - 1]))
    && (j == |s| || !IsU(s[j]))
  }

  /** Where the run that ends before j stops once the character after it is taken along. */
  function AfterNext(s: string, j: nat): (k: nat)
    requires j <= |s|
    ensures j <= k <= |s|
  {
    if j == |s| then j else j + 1
  }

  /** Every run of u/U, taken with the character after it, holds as many capitals in a as in b. */
  ghost predicate RunsAgree(a: string, b: string)
    requires |a| == |b|
  {
    forall i: nat, j: nat :: IsURun(a, i, j) ==>
      Capitals(a, i, AfterNext(a, j)) == Capitals(b, i, AfterNext(b, j))
  }

  /** Reads both names together from position k; surplus is how many more capitals a has than b in the current run. */
  predicate Walk(a: string, b: string, k: nat, surplus: int)
    requires k <= |a| == |b|
    decreases |a| - k
  {
    if k == |a| then surplus == 0
    else
      var next := surplus + CapitalBit(a[k]) - CapitalBit(b[k]);
      if IsU(a[k]) then Walk(a, b, k + 1, next)
      else next == 0 && Walk(a, b, k + 1, 0)
  }

  function Us(n: nat): (s: string)
    ensures |s| == n && forall i :: 0 <= i < n ==> s[i] == 'u'
  {
    if n == 0 then "" else ['u'] + Us(n - 1)
  }

  /** The slugs of a and b agree after x and y letters u already read. */
  ghost predicate Meet(x: nat, a: string, y: nat, b: string) {
    Us(x) + SlugOf(a) == Us(y) + SlugOf(b)
  }

  lemma MeetAfterU(x: nat, a: string, y: nat, b: string, p: nat, q: nat)
    requires SameUpToCase(a, b) && a != "" && IsU(a[0])
    requires p == CapitalBit(a[0]) && q == CapitalBit(b[0])
    ensures Meet(x, a, y, b) <==> Meet(x + 1 + p, a[1..], y + 1 + q, b[1..])
  {
    SameHeads(a, b);
    UsThenU(x, a[0], SlugOf(a[1..]));
    UsThenU(y, b[0], SlugOf(b[1..]));
  }

  lemma MeetAfterOther(x: nat, a: string, y: nat, b: string, p: nat, q: nat)
    requires SameUpToCase(a, b) && a != "" && !IsU(a[0])
    requires p == CapitalBit(a[0]) && q == CapitalBit(b[0])
    ensures Meet(x, a, y, b) <==> x + p == y + q && Meet(0, a[1..], 0, b[1..])
  {
    SameHeads(a, b);
    MeetOther(x, a[0], SlugOf(a[1..]), y, b[0], SlugOf(b[1..]));
    NoUs(SlugOf(a[1..]));
    NoUs(SlugOf(b[1..]));
  }

  lemma DiffersAfterUs(x: nat, c: char, r: string, y: nat, d: char, s: string)
    requires c != 'u' && d != 'u'
    ensures Us(x) + ([c] + r) == Us(y) + ([d] + s) <==> x == y && c == d && r == s
    ensures Us(x) + ([c] + r) != Us(y)
  {
    var left, right := Us(x) + ([c] + r), Us(y) + ([d] + s);
    assert left[x] == c && right[y] == d;
    assert forall i :: 0 <= i < x ==> left[i] == 'u';
    assert forall i :: 0 <= i < y ==> right[i] == 'u';
    if left == right {
      assert x == y;
      assert r == left[x + 1..] && s == right[y + 1..];
    }
  }

  lemma SplitAlike(left: string, p: nat, r: string, right: string, q: nat, s: string, c: char)
    requires c != 'u' && left == Us(p) + ([c] + r) && right == Us(q) + ([c] + s)
    ensures left == right <==> p == q && r == s
  {
    DiffersAfterUs(p, c, r, q, c, s);
  }

  lemma MeetOther(x: nat, c: char, r: string, y: nat, d: char, s: string)
    requires !IsU(c) && !IsU(d) && Folded(c) == Folded(d) != 'u'
    ensures Us(x) + Emit(c, r) == Us(y) + Emit(d, s) <==> x + CapitalBit(c) == y + CapitalBit(d) && r == s
  {
    UsThenOther(x, c, r);
    UsThenOther(y, d, s);
    SplitAlike(Us(x) + Emit(c, r), x + CapitalBit(c), r, Us(y) + Emit(d, s), y + CapitalBit(d), s, Folded(c));
  }

  lemma NoUs(s: string)
    ensures Us(0) + s == s
  {
  }

  lemma UsPlusOne(x: nat, s: string)
    ensures Us(x) + (['u'] + s) == Us(x + 1) + s
  {
  }

  function Folded(c: char): char {
    if c == '/' then '-' else Lower(c)
  }

  lemma UsThenU(x: nat, c: char, rest: string)
    requires IsU(c)
    ensures Us(x) + Emit(c, rest) == Us(x + 1 + CapitalBit(c)) + rest
  {
    if IsUpper(c) {
      UsPlusOne(x, [Lower(c)] + rest);
      UsPlusOne(x + 1, rest);
    } else {
      UsPlusOne(x, rest);
    }
  }

  lemma UsThenOther(x: nat, c: char, rest: string)
    requires !IsU(c)
    ensures Us(x) + Emit(c, rest) == Us(x + CapitalBit(c)) + ([Folded(c)] + rest)
  {
    if IsUpper(c) {
      UsPlusOne(x, [Lower(c)] + rest);
    }
  }

  lemma {:induction false} MeetIffWalk(a: string, b: string, k: nat, x: nat, y: nat)
    requires k <= |a| && SameUpToCase(a, b)
    ensures Meet(x, a[k..], y, b[k..]) <==> Walk(a, b, k, x - y)
    decreases |a| - k
  {
    var s, t := a[k..], b[k..];
    assert SameUpToCase(s, t);
    if k == |a| {
      assert |Us(x) + SlugOf(s)| == x && |Us(y) + SlugOf(t)| == y;
    } else {
      var p, q := CapitalBit(a[k]), CapitalBit(b[k]);
      assert s[1..] == a[k + 1..] && t[1..] == b[k + 1..];
      if IsU(a[k]) {
        MeetAfterU(x, s, y, t, p, q);
        MeetIffWalk(a, b, k + 1, x + 1 + p, y + 1 + q);
      } else {
        MeetAfterOther(x, s, y, t, p, q);
        MeetIffWalk(a, b, k + 1, 0, 0);
      }
    }
  }

  lemma SameHeads(a: string, b: string)
    requires SameUpToCase(a, b) && a != ""
    ensures SameUpToCase(a[1..], b[1..])
    ensures IsU(a[0]) <==> IsU(b[0])
    ensures Folded(a[0]) == Folded(b[0])
    ensures !IsU(a[0]) ==> Folded(a[0]) != 'u'
  {
    assert Lower(a[0]) == Lower(b[0]);
    forall i | 0 <= i < |a[1..]| ensures Lower(a[1..][i]) == Lower(b[1..][i]) {
      assert Lower(a[i + 1]) == Lower(b[i + 1]);
    }
  }

  ghost predicate RunsAgreeFrom(a: string, b: string, start: nat)
    requires |a| == |b|
  {
    forall i: nat, j: nat :: start <= i && IsURun(a, i, j) ==>
      Capitals(a, i, AfterNext(a, j)) == Capitals(b, i, AfterNext(b, j))
  }

  /** Walking from position k inside the run that began at start decides every run from start on. */
  lemma {:induction false} WalkIffRunsAgree(a: string, b: string, start: nat, k: nat)
    requires start <= k <= |a| == |b|
    requires start == 0 || !IsU(a[start - 1])
    requires forall i :: start <= i < k ==> IsU(a[i])
    ensures Walk(a, b, k, Capitals(a, start, k) - Capitals(b, start, k)) <==> RunsAgreeFrom(a, b, start)
    decreases |a| - k
  {
    if k == |a| {
      LastRun(a, b, start);
    } else if IsU(a[k]) {
      WalkIffRunsAgree(a, b, start, k + 1);
    } else {
      WalkIffRunsAgree(a, b, k + 1, k + 1);
      RunEndsHere(a, b, start, k);
    }
  }

  lemma LastRun(a: string, b: string, start: nat)
    requires start <= |a| == |b|
    requires start == 0 || !IsU(a[start - 1])
    requires forall i :: start <= i < |a| ==> IsU(a[i])
    ensures Capitals(a, start, |a|) == Capitals(b, start, |a|) <==> RunsAgreeFrom(a, b, start)
  {
    assert IsURun(a, start, |a|);
    forall i: nat, j: nat | start <= i && IsURun(a, i, j)
      ensures i == start && j == |a|
    {
    }
  }

  lemma RunEndsHere(a: string, b: string, start: nat, k: nat)
    requires start <= k < |a| == |b|
    requires start == 0 || !IsU(a[start - 1])
    requires !IsU(a[k]) && forall i :: start <= i < k ==> IsU(a[i])
    ensures RunsAgreeFrom(a, b, start) <==>
      Capitals(a, start, k + 1) == Capitals(b, start, k + 1) && RunsAgreeFrom(a, b, k + 1)
  {
    assert IsURun(a, start, k);
    forall i: nat, j: nat | start <= i && IsURun(a, i, j)
      ensures (i == start && j == k) || k + 1 <= i
    {
    }
  }

  /** Two spellings of one repo share a slug exactly when every u/U run holds the same number of capitals in both. */
  lemma SlugCollision(a: string, b: string)
    requires SameUpToCase(a, b)
    ensures SlugOf(a) == SlugOf(b) <==> RunsAgree(a, b)
  {
    assert a[0..] == a && b[0..] == b;
    MeetIffWalk(a, b, 0, 0, 0);
    NoUs(SlugOf(a));
    NoUs(SlugOf(b));
    WalkIffRunsAgree(a, b, 0, 0);
  }

  /** The encoding is not injective: a capital u and a capital after a u look alike. */
  lemma SlugNotInjective()
    ensures "Ubuntu" != "uBuntu" && SlugOf("Ubuntu") == SlugOf("uBuntu")
  {
    SlugOfPair("Ub", "untu");
    SlugOfPair("uB", "untu");
    assert "Ub" + "untu" == "Ubuntu" && "uB" + "untu" == "uBuntu";
    SlugOfTwo('U', 'b');
    SlugOfTwo('u', 'B');
  }

  lemma SlugOfTwo(c: char, d: char)
    ensures SlugOf([c, d]) == Emit(c, Emit(d, ""))
  {
    assert [c, d][1..] == [d] && [d][1..] == "";
    assert SlugOf([d]) == Emit(d, "");
  }

  // ----- Which names collide at all

  /** What a slug shows of a stretch of a name: how many letters u it writes, and the character they lead up to. */
  datatype Block = Block(us: nat, next: Option<char>)

  /** A name cut after every character that is no u/U; a capital adds one u, itself a u or not. */
  function Blocks(s: string, held: nat): seq<Block> {
    if s == "" then [Block(held, None)]
    else if IsU(s[0]) then Blocks(s[1..], held + 1 + CapitalBit(s[0]))
    else [Block(held + CapitalBit(s[0]), Some(Folded(s[0])))] + Blocks(s[1..], 0)
  }

  lemma FoldedIsNoU(c: char)
    requires !IsU(c)
    ensures Folded(c) != 'u'
  {
  }

  lemma JustUs(x: nat, y: nat)
    ensures Us(x) == Us(y) <==> x == y
  {
  }

  /** What is written of a name after held letters u: its first block, or one more letter held. */
  lemma HeadIs(s: string, held: nat)
    ensures s == "" ==> Us(held) + SlugOf(s) == Us(held)
    ensures s != "" && IsU(s[0]) ==> Us(held) + SlugOf(s) == Us(held + 1 + CapitalBit(s[0])) + SlugOf(s[1..])
    ensures s != "" && !IsU(s[0]) ==>
      Folded(s[0]) != 'u' && Us(held) + SlugOf(s) == Us(held + CapitalBit(s[0])) + ([Folded(s[0])] + SlugOf(s[1..]))
  {
    if s != "" {
      if IsU(s[0]) {
        UsThenU(held, s[0], SlugOf(s[1..]));
      } else {
        FoldedIsNoU(s[0]);
        UsThenOther(held, s[0], SlugOf(s[1..]));
      }
    }
  }

  lemma {:induction false} MeetIffBlocks(x: nat, a: string, y: nat, b: string)
    ensures Meet(x, a, y, b) <==> Blocks(a, x) == Blocks(b, y)
    decreases |a| + |b|
  {
    HeadIs(a, x);
    HeadIs(b, y);
    if a != "" && IsU(a[0]) {
      MeetIffBlocks(x + 1 + CapitalBit(a[0]), a[1..], y, b);
    } else if b != "" && IsU(b[0]) {
      MeetIffBlocks(x, a, y + 1 + CapitalBit(b[0]), b[1..]);
    } else {
      BothEnd(x, a, y, b);
    }
  }

  /** Neither name goes on with a u/U. */
  lemma {:induction false} BothEnd(x: nat, a: string, y: nat, b: string)
    requires (a == "" || !IsU(a[0])) && (b == "" || !IsU(b[0]))
    ensures Meet(x, a, y, b) <==> Blocks(a, x) == Blocks(b, y)
    decreases |a| + |b|, 0
  {
    if a == "" && b == "" {
      HeadIs(a, x);
      HeadIs(b, y);
      JustUs(x, y);
    } else if a == "" {
      OneEnds(x, y, b);
    } else if b == "" {
      OneEnds(y, x, a);
    } else {
      MeetIffBlocks(0, a[1..], 0, b[1..]);
      HeadsMeet(x, a, y, b);
      HeadBlocks(x, a, y, b);
    }
  }

  lemma OneEnds(x: nat, y: nat, b: string)
    requires b != "" && !IsU(b[0])
    ensures !Meet(x, "", y, b) && !Meet(y, b, x, "") && Blocks("", x) != Blocks(b, y)
  {
    HeadIs("", x);
    HeadIs(b, y);
    DiffersAfterUs(y + CapitalBit(b[0]), Folded(b[0]), SlugOf(b[1..]), x, Folded(b[0]), "");
    assert Blocks(b, y)[0].next.Some? && Blocks("", x)[0].next.None?;
  }

  lemma HeadsMeet(x: nat, a: string, y: nat, b: string)
    requires a != "" && b != "" && !IsU(a[0]) && !IsU(b[0])
    ensures Meet(x, a, y, b) <==>
      x + CapitalBit(a[0]) == y + CapitalBit(b[0]) && Folded(a[0]) == Folded(b[0]) && Meet(0, a[1..], 0, b[1..])
  {
    HeadIs(a, x);
    HeadIs(b, y);
    NoUs(SlugOf(a[1..]));
    NoUs(SlugOf(b[1..]));
    DiffersAfterUs(x + CapitalBit(a[0]), Folded(a[0]), SlugOf(a[1..]), y + CapitalBit(b[0]), Folded(b[0]), SlugOf(b[1..]));
  }

  lemma HeadBlocks(x: nat, a: string, y: nat, b: string)
    requires a != "" && b != "" && !IsU(a[0]) && !IsU(b[0])
    ensures Blocks(a, x) == Blocks(b, y) <==>
      x + CapitalBit(a[0]) == y + CapitalBit(b[0]) && Folded(a[0]) == Folded(b[0]) && Blocks(a[1..], 0) == Blocks(b[1..], 0)
  {
    var left, right := Blocks(a, x), Blocks(b, y);
    assert left[1..] == Blocks(a[1..], 0) && right[1..] == Blocks(b[1..], 0);
    assert left == [left[0]] + left[1..] && right == [right[0]] + right[1..];
  }

  /**
   * Any two names share a slug exactly when they have the same characters besides u/U, up to case and slash, and before each
   * of them, and at the end, write equally many letters u.
   */
  lemma SlugsMeetExactly(a: string, b: string)
    ensures SlugOf(a) == SlugOf(b) <==> Blocks(a, 0) == Blocks(b, 0)
  {
    MeetIffBlocks(0, a, 0, b);
    NoUs(SlugOf(a));
    NoUs(SlugOf(b));
  }

  /** So names of different lengths collide too: every capital looks like a u and its small letter. */
  lemma CapitalLooksLikeU(front: string, c: char, back: string)
    requires IsUpper(c)
    ensures SlugOf(front + [c] + back) == SlugOf(front + ['u', Lower(c)] + back)
  {
    SlugOfPair(front + [c], back);
    SlugOfPair(front, [c]);
    SlugOfPair(front + ['u', Lower(c)], back);
    SlugOfPair(front, ['u', Lower(c)]);
    SlugOfTwo('u', Lower(c));
    assert SlugOf([c]) == Emit(c, "");
  }

  /** A slash and a dash merge. */
  lemma SlashMergesWithDash(owner: string, repo: string)
    ensures SlugOf(owner + "/" + repo) == SlugOf(owner + "-" + repo)
  {
    SlugOfPair(owner + "/", repo);
    SlugOfPair(owner + "-", repo);
    SlugOfPair(owner, "/");
    SlugOfPair(owner, "-");
    assert SlugOf("/") == Emit('/', "") == Emit('-', "") == SlugOf("-");
  }

  // ----- Reading a slug back

  function DashForSlash(s: string): string {
    seq(|s|, i requires 0 <= i < |s| => if s[i] == '/' then '-' else s[i])
  }

  function Unslug(slug: string): string
    decreases |slug|
  {
    if slug == "" then ""
    else if slug[0] == 'u' && |slug| > 1 then [Upper(slug[1])] + Unslug(slug[2..])
    else [slug[0]] + Unslug(slug[1..])
  }

  predicate NoU(s: string) {
    forall i :: 0 <= i < |s| ==> !IsU(s[i])
  }

  predicate NoCapitals(s: string) {
    forall i :: 0 <= i < |s| ==> !IsUpper(s[i])
  }

  lemma {:induction false} UnslugRoundTrip(repo: string)
    requires NoU(repo)
    ensures Unslug(SlugOf(repo)) == DashForSlash(repo)
  {
    if repo != "" {
      UnslugRoundTrip(repo[1..]);
      assert DashForSlash(repo) == [if repo[0] == '/' then '-' else repo[0]] + DashForSlash(repo[1..]);
      var slug := SlugOf(repo);
      if IsUpper(repo[0]) {
        assert slug[0] == 'u' && slug[2..] == SlugOf(repo[1..]);
      } else {
        assert slug[1..] == SlugOf(repo[1..]);
      }
    }
  }

  /** Case variants of a repo name without u/U never share a slug. */
  lemma CaseVariantsWithoutUDiffer(a: string, b: string)
    requires SameUpToCase(a, b) && NoU(a) && NoU(b) && a != b
    ensures SlugOf(a) != SlugOf(b)
  {
    UnslugRoundTrip(a);
    UnslugRoundTrip(b);
    var i :| 0 <= i < |a| && a[i] != b[i];
    assert Lower(a[i]) == Lower(b[i]);
    assert DashForSlash(a)[i] != DashForSlash(b)[i];
  }

  /** A lowercase repo name changes only in its slash. */
  lemma {:induction false} AlreadyLower(repo: string)
    requires NoCapitals(repo)
    ensures SlugOf(repo) == DashForSlash(repo)
  {
    if repo != "" {
      AlreadyLower(repo[1..]);
      assert DashForSlash(repo) == [if repo[0] == '/' then '-' else repo[0]] + DashForSlash(repo[1..]);
    }
  }

  // ----- The number at the end of the name

  /** `_issue_from_name`: the number after the last dash, 0 when it is not one. */
  function IssueFromName(name: string): int {
    var tail := DashTail(name);
    if tail != "" && AllDigits(tail) then
      (match ParseDigits(tail) case Some(value) => value case None => 0)
    else 0
  }

  lemma NameTail(front: string, n: nat)
    ensures DashTail(front + ("-" + IntText(n))) == NatText(n)
  {
    var tail := NatText(n);
    assert '-' !in tail;
    DashTailOfConcat(front, tail);
    assert front + ("-" + tail) == front + "-" + tail;
  }

  lemma NameCarriesIssue(repo: string, n: nat)
    ensures IssueFromName(WorkloadName(repo, n)) == n
  {
    NameTail("wl-" + SlugOf(repo), n);
    NatTextParses(n);
  }

  /** Two issues share a Workload name exactly when their slugs and their numbers agree. */
  lemma NameCollision(a: string, m: nat, b: string, n: nat)
    ensures WorkloadName(a, m) == WorkloadName(b, n) <==> SlugOf(a) == SlugOf(b) && m == n
  {
    if WorkloadName(a, m) == WorkloadName(b, n) {
      NameCarriesIssue(a, m);
      NameCarriesIssue(b, n);
      SameMiddle("wl-", SlugOf(a), SlugOf(b), "-" + NatText(n));
    }
  }

  /** So do two branches. */
  lemma BranchCollision(a: string, m: nat, b: string, n: nat)
    ensures BranchName(a, m) == BranchName(b, n) <==> SlugOf(a) == SlugOf(b) && m == n
  {
    if BranchName(a, m) == BranchName(b, n) {
      BranchTail(a, m);
      BranchTail(b, n);
      NatTextInjective(m, n);
      SameMiddle("foreman/", WorkloadName(a, m), WorkloadName(b, n), "/issue-" + NatText(n));
      NameCollision(a, m, b, n);
    }
  }

  lemma DashRegroups(front: string, tail: string)
    ensures front + "/issue-" + tail == front + "/issue" + ("-" + tail) == front + ("/issue-" + tail)
  {
    assert "/issue-" == "/issue" + "-";
  }

  lemma BranchTail(repo: string, n: nat)
    ensures DashTail(BranchName(repo, n)) == NatText(n)
    ensures BranchName(repo, n) == "foreman/" + WorkloadName(repo, n) + ("/issue-" + NatText(n))
  {
    DashRegroups("foreman/" + WorkloadName(repo, n), NatText(n));
    NameTail("foreman/" + WorkloadName(repo, n) + "/issue", n);
  }

  lemma SameMiddle(front: string, x: string, y: string, back: string)
    requires front + x + back == front + y + back
    ensures x == y
  {
    var left, right := front + x + back, front + y + back;
    assert |x| == |y|;
    assert x == left[|front|..|front| + |x|];
    assert y == right[|front|..|front| + |y|];
  }
}
