/** String helpers that mirror the Python built-ins the source relies on. */
module Text {

  /** Python's str(n) for a natural number: its decimal digits. */
  function NatToString(n: nat): (r: string)
    ensures |r| > 0
    ensures forall k :: 0 <= k < |r| ==> '0' <= r[k] <= '9'
    decreases n
  {
    if n < 10 then [Digit(n)] else NatToString(n / 10) + [Digit(n % 10)]
  }

  function Digit(d: nat): char
    requires d < 10
  {
    "0123456789"[d]
  }

  /** Python's str(i) for an integer: a minus sign before the digits of |i|. */
  function IntToString(i: int): (r: string)
    ensures |r| > 0
    ensures (i < 0) == (r[0] == '-')
  {
    if i < 0 then "-" + NatToString(-i) else NatToString(i)
  }

  /** Python's sep.join(parts). */
  function Join(sep: string, parts: seq<string>): string
  {
    if |parts| == 0 then ""
    else if |parts| == 1 then parts[0]
    else parts[0] + sep + Join(sep, parts[1..])
  }

  predicate StartsWith(s: string, p: string)
  {
    |p| <= |s| && s[..|p|] == p
  }

  predicate EndsWith(s: string, p: string)
  {
    |p| <= |s| && s[|s| - |p|..] == p
  }

  /** p occurs in s at index i. */
  predicate OccursAt(s: string, p: string, i: int)
  {
    0 <= i && i + |p| <= |s| && s[i..i + |p|] == p
  }

  /** Python's s.rfind(p): the last index at which p occurs, or -1. */
  function RFind(s: string, p: string): (r: int)
    ensures -1 <= r <= |s|
    ensures r != -1 ==> OccursAt(s, p, r)
  {
    if |p| > |s| then -1 else RFindFrom(s, p, |s| - |p|)
  }

  /** rfind answers -1 exactly when p does not occur, and otherwise no later occurrence exists. */
  lemma RFindIsLast(s: string, p: string)
    ensures RFind(s, p) == -1 <==> forall i :: 0 <= i <= |s| ==> !OccursAt(s, p, i)
    ensures RFind(s, p) != -1 ==> forall i :: RFind(s, p) < i <= |s| ==> !OccursAt(s, p, i)
  {
    if |p| <= |s| {
      RFindFromIsLast(s, p, |s| - |p|);
    }
  }

  /** The last occurrence of p in s at an index no larger than i. */
  function RFindFrom(s: string, p: string, i: int): (r: int)
    requires -1 <= i <= |s| - |p|
    ensures -1 <= r <= i
    ensures r != -1 ==> OccursAt(s, p, r)
    decreases i + 1
  {
    if i < 0 then -1
    else if s[i..i + |p|] == p then i
    else RFindFrom(s, p, i - 1)
  }

  lemma {:induction false} RFindFromIsLast(s: string, p: string, i: int)
    requires -1 <= i <= |s| - |p|
    ensures RFindFrom(s, p, i) == -1 <==> forall j :: 0 <= j <= i ==> !OccursAt(s, p, j)
    ensures RFindFrom(s, p, i) != -1 ==> forall j :: RFindFrom(s, p, i) < j <= i ==> !OccursAt(s, p, j)
    decreases i + 1
  {
    if i >= 0 && s[i..i + |p|] != p {
      RFindFromIsLast(s, p, i - 1);
    } else if i >= 0 {
      assert OccursAt(s, p, i);
    }
  }

  /** Python's s.lstrip(c) for one character c. */
  function LStrip(s: string, c: char): (r: string)
    ensures |r| <= |s| && r == s[|s| - |r|..]
    ensures |r| == 0 || r[0] != c
    ensures forall k :: 0 <= k < |s| - |r| ==> s[k] == c
  {
    if |s| > 0 && s[0] == c then LStrip(s[1..], c) else s
  }

  /** Python's s.rstrip(c) for one character c. */
  function RStrip(s: string, c: char): (r: string)
    ensures |r| <= |s| && r == s[..|r|]
    ensures |r| == 0 || r[|r| - 1] != c
    ensures forall k :: |r| <= k < |s| ==> s[k] == c
  {
    if |s| > 0 && s[|s| - 1] == c then RStrip(s[..|s| - 1], c) else s
  }

  /** Python's s.strip(c) for one character c. */
  function Strip(s: string, c: char): string
  {
    RStrip(LStrip(s, c), c)
  }

  /** s repeated n times. */
  function Repeat(s: string, n: nat): (r: string)
    ensures |r| == n * |s|
  {
    if n == 0 then "" else s + Repeat(s, n - 1)
  }

  /** Repeat also grows at the end. */
  lemma {:induction false} RepeatSnoc(s: string, n: nat)
    ensures Repeat(s, n + 1) == Repeat(s, n) + s
  {
    if n > 0 {
      RepeatSnoc(s, n - 1);
    }
  }
}
