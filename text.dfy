/** The string operations the cache layer and the dashboard rely on:
    `str.replace` with one-character arguments, `str.strip`/`rstrip` of one
    character, Python slicing, `str(int)` and `int(str)` on ASCII digits. */
module Text {

  predicate IsDigit(c: char) {
    '0' <= c <= '9'
  }

  /** `s.isdigit()` restricted to ASCII digits: true for a non-empty string
      of digits only. */
  predicate IsDigits(s: string) {
    s != [] && AllDigits(s)
  }

  predicate AllDigits(s: string) {
    forall i :: 0 <= i < |s| ==> IsDigit(s[i])
  }

  /** `s.replace(a, b)` for single characters `a` and `b`. */
  function Replace(s: string, a: char, b: char): (r: string)
    ensures |r| == |s|
    ensures forall i :: 0 <= i < |s| ==> r[i] == (if s[i] == a then b else s[i])
  {
    if s == [] then [] else [if s[0] == a then b else s[0]] + Replace(s[1..], a, b)
  }

  /** `s.replace(c, "")`: every occurrence of `c` deleted. */
  function Remove(s: string, c: char): (r: string)
    ensures |r| <= |s|
    ensures forall i :: 0 <= i < |r| ==> r[i] != c
  {
    if s == [] then [] else (if s[0] == c then [] else [s[0]]) + Remove(s[1..], c)
  }

  /** `s.lstrip(c)`. */
  function StripLeft(s: string, c: char): string {
    if s != [] && s[0] == c then StripLeft(s[1..], c) else s
  }

  /** `s.rstrip(c)`. */
  function StripRight(s: string, c: char): string {
    if s != [] && s[|s| - 1] == c then StripRight(s[..|s| - 1], c) else s
  }

  /** `s.strip(c)`. */
  function Strip(s: string, c: char): string {
    StripRight(StripLeft(s, c), c)
  }

  /** `s[i:j]` for non-negative bounds: out-of-range bounds are clamped. */
  function Slice<T>(s: seq<T>, i: nat, j: nat): (r: seq<T>)
    ensures |s| >= j >= i ==> r == s[i..j]
    ensures |s| <= i ==> r == []
    ensures i <= |s| <= j ==> r == s[i..]
    ensures |r| <= if j >= i then j - i else 0
  {
    var hi := if j < |s| then j else |s|;
    var lo := if i < hi then i else hi;
    s[lo..hi]
  }

  function DigitChar(d: nat): (c: char)
    requires d < 10
    ensures IsDigit(c)
  {
    ('0' as int + d) as char
  }

  function DigitValue(c: char): (d: nat)
    requires IsDigit(c)
    ensures d < 10 && DigitChar(d) == c
  {
    c as int - '0' as int
  }

  /** `str(n)` for a natural number. */
  function NatStr(n: nat): (s: string)
    ensures IsDigits(s)
  {
    if n < 10 then [DigitChar(n)] else NatStr(n / 10) + [DigitChar(n % 10)]
  }

  /** `str(i)` for an integer. */
  function IntStr(i: int): string {
    if i < 0 then "-" + NatStr(-i) else NatStr(i)
  }

  /** `int(s)` for a string of ASCII digits (leading zeros allowed). */
  function ParseNat(s: string): nat
    requires AllDigits(s)
  {
    if s == [] then 0 else 10 * ParseNat(s[..|s| - 1]) + DigitValue(s[|s| - 1])
  }

  /** Reading back what `str` wrote gives the number. */
  lemma {:induction false} ParseNatStr(n: nat)
    ensures ParseNat(NatStr(n)) == n
  {
    if n >= 10 {
      var s := NatStr(n);
      assert s[..|s| - 1] == NatStr(n / 10);
      ParseNatStr(n / 10);
    }
  }

  /** `str` on integers is injective, so distinct ids never share a cache key. */
  lemma IntStrInjective(a: int, b: int)
    ensures IntStr(a) == IntStr(b) <==> a == b
  {
    assert IntStr(a)[0] == '-' <==> a < 0;
    assert IntStr(b)[0] == '-' <==> b < 0;
    if a < 0 && b < 0 && IntStr(a) == IntStr(b) {
      assert IntStr(a)[1..] == NatStr(-a) && IntStr(b)[1..] == NatStr(-b);
      ParseNatStr(-a);
      ParseNatStr(-b);
    } else if a >= 0 && b >= 0 && IntStr(a) == IntStr(b) {
      ParseNatStr(a);
      ParseNatStr(b);
    }
  }

  lemma {:induction false} RemoveAppend(x: string, y: string, c: char)
    ensures Remove(x + y, c) == Remove(x, c) + Remove(y, c)
  {
    if x != [] {
      assert (x + y)[1..] == x[1..] + y;
      RemoveAppend(x[1..], y, c);
    } else {
      assert x + y == y;
    }
  }

  lemma {:induction false} RemoveNothing(s: string, c: char)
    requires forall i :: 0 <= i < |s| ==> s[i] != c
    ensures Remove(s, c) == s
  {
    if s != [] {
      RemoveNothing(s[1..], c);
    }
  }

  lemma {:induction false} RemoveStripLeft(s: string, c: char)
    ensures Remove(StripLeft(s, c), c) == Remove(s, c)
  {
    if s != [] && s[0] == c {
      RemoveStripLeft(s[1..], c);
    }
  }

  lemma {:induction false} RemoveStripRight(s: string, c: char)
    ensures Remove(StripRight(s, c), c) == Remove(s, c)
  {
    if s != [] && s[|s| - 1] == c {
      var init := s[..|s| - 1];
      RemoveStripRight(init, c);
      assert s == init + [c];
      RemoveAppend(init, [c], c);
    }
  }

  /** When what remains after stripping `c` from both ends holds no `c`,
      deleting every `c` gives the same string as stripping. */
  lemma RemoveIsStrip(s: string, c: char)
    requires forall i :: 0 <= i < |Strip(s, c)| ==> Strip(s, c)[i] != c
    ensures Remove(s, c) == Strip(s, c)
  {
    RemoveStripLeft(s, c);
    RemoveStripRight(StripLeft(s, c), c);
    RemoveNothing(Strip(s, c), c);
  }
}
