/** Decimal text: `str(n)` and `int(s)` on ASCII strings, and the tail of a dashed name. */
module Text {
  import opened Outcomes

  predicate IsDigit(c: char) {
    '0' <= c <= '9'
  }

  predicate AllDigits(s: string) {
    forall i :: 0 <= i < |s| ==> IsDigit(s[i])
  }

  function DigitChar(d: nat): (c: char)
    requires d < 10
    ensures IsDigit(c) && DigitValue(c) == d
  {
    ('0' as int + d) as char
  }

  function DigitValue(c: char): nat
    requires IsDigit(c)
  {
    c as int - '0' as int
  }

  function NatText(n: nat): (s: string)
    ensures |s| > 0 && AllDigits(s)
  {
    if n < 10 then [DigitChar(n)] else NatText(n / 10) + [DigitChar(n % 10)]
  }

  /** `str(n)`. */
  function IntText(n: int): (s: string)
    ensures |s| > 0 && IsDigit(s[|s| - 1])
    ensures IsDigit(s[0]) || s[0] == '-'
  {
    if n < 0 then "-" + NatText(-n) else NatText(n)
  }

  predicate IsSpace(c: char) {
    c == ' ' || '\t' <= c <= '\r' || 0x1c <= c as int <= 0x1f
  }

  /** `s.strip()`. */
  function Strip(s: string): string {
    if s == "" then ""
    else if IsSpace(s[0]) then Strip(s[1..])
    else if IsSpace(s[|s| - 1]) then Strip(s[..|s| - 1])
    else s
  }

  /** A digit string with at most one underscore between neighbouring digits, as `int()` reads it. */
  function ParseDigits(s: string): Option<nat>
    decreases |s|
  {
    if s == "" || !IsDigit(s[|s| - 1]) then None
    else
      var last := DigitValue(s[|s| - 1]);
      var front := s[..|s| - 1];
      if front == "" then Some(last)
      else
        var shorter := if front[|front| - 1] == '_' then front[..|front| - 1] else front;
        match ParseDigits(shorter)
        case None => None
        case Some(value) => Some(10 * value + last)
  }

  /** `int(s)`; None is the ValueError. */
  function ParseInt(s: string): Option<int> {
    ParseSigned(Strip(s))
  }

  function ParseSigned(body: string): Option<int> {
    if body != "" && body[0] == '-' then
      match ParseDigits(body[1..]) case None => None case Some(value) => Some(0 - value)
    else if body != "" && body[0] == '+' then
      match ParseDigits(body[1..]) case None => None case Some(value) => Some(value)
    else
      match ParseDigits(body) case None => None case Some(value) => Some(value)
  }

  lemma {:induction false} NatTextParses(n: nat)
    ensures ParseDigits(NatText(n)) == Some(n)
  {
    if n >= 10 {
      var s := NatText(n);
      var front := s[..|s| - 1];
      assert front == NatText(n / 10);
      NatTextParses(n / 10);
    }
  }

  /** Every integer survives being written to an annotation and read back. */
  lemma IntTextRoundTrip(n: int)
    ensures ParseInt(IntText(n)) == Some(n)
  {
    assert Strip(IntText(n)) == IntText(n);
    SignedTextParses(n);
  }

  lemma SignedTextParses(n: int)
    ensures ParseSigned(IntText(n)) == Some(n)
  {
    if n < 0 {
      var s := IntText(n);
      assert s[0] == '-' && s[1..] == NatText(-n);
      NatTextParses(-n);
    } else {
      assert IsDigit(NatText(n)[0]);
      NatTextParses(n);
    }
  }

  lemma NatTextInjective(m: nat, n: nat)
    requires NatText(m) == NatText(n)
    ensures m == n
  {
    NatTextParses(m);
    NatTextParses(n);
  }

  /** `name.rsplit("-", 1)[-1]`. */
  function DashTail(name: string): (tail: string)
    ensures '-' !in tail
    ensures |tail| <= |name| && name[|name| - |tail|..] == tail
    ensures |tail| < |name| ==> name[|name| - |tail| - 1] == '-'
  {
    if name == "" || name[|name| - 1] == '-' then ""
    else
      var tail := DashTail(name[..|name| - 1]);
      assert name == name[..|name| - 1] + [name[|name| - 1]];
      tail + [name[|name| - 1]]
  }

  lemma {:induction false} DashTailOfConcat(front: string, tail: string)
    requires '-' !in tail
    ensures DashTail(front + "-" + tail) == tail
  {
    var name := front + "-" + tail;
    if tail != "" {
      var shorter := tail[..|tail| - 1];
      assert name[..|name| - 1] == front + "-" + shorter;
      assert '-' !in shorter;
      DashTailOfConcat(front, shorter);
      assert tail == shorter + [tail[|tail| - 1]];
    }
  }
}
