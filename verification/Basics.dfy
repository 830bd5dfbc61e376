/** Values shared by every component: options, the clock and the numeric limits of the host language. */
module Basics {

  datatype Option<+T> = None | Some(value: T)

  /** One monotone clock shared by MySQL, Redis and every process, in nanoseconds or milliseconds. */
  type Time = nat

  const MAX_INT64: int := 0x7fff_ffff_ffff_ffff

  lemma SubsetSize<T>(a: set<T>, b: set<T>)
    requires a <= b
    ensures |a| <= |b|
    ensures |a| == |b| ==> a == b
  {
    var rest := b - a;
    assert b == a + rest;
    if rest != {} { assert |rest| > 0; }
  }

  /** The elements of `s` in ascending order, the first `k` of them: ORDER BY id LIMIT k. */
  ghost predicate IsSmallest(out: seq<nat>, s: set<nat>, k: nat) {
    && (forall i, j :: 0 <= i < j < |out| ==> out[i] < out[j])
    && (forall i :: 0 <= i < |out| ==> out[i] in s)
    && |out| <= k
    && (|out| < k ==> forall x :: x in s ==> x in out)
    && (forall x, i :: x in s && x !in out && 0 <= i < |out| ==> out[i] < x)
  }

  lemma MinExists(s: set<nat>) returns (m: nat)
    requires s != {}
    ensures m in s && forall x :: x in s ==> m <= x
  {
    m :| m in s;
    if s != {m} {
      var rest := MinExists(s - {m});
      assert s == (s - {m}) + {m};
      if rest < m { m := rest; }
    }
  }

  /** The rows an ORDER BY id LIMIT k query returns. */
  method SmallestFirst(s: set<nat>, k: nat) returns (out: seq<nat>)
    ensures IsSmallest(out, s, k)
  {
    out := [];
    var rest := s;
    while |out| < k && rest != {}
      invariant rest <= s && |out| <= k
      invariant forall i, j :: 0 <= i < j < |out| ==> out[i] < out[j]
      invariant forall i :: 0 <= i < |out| ==> out[i] in s && out[i] !in rest
      invariant forall x, i :: x in rest && 0 <= i < |out| ==> out[i] < x
      invariant forall x :: x in s && x !in rest ==> x in out
      decreases rest
    {
      ghost var m := MinExists(rest);
      var next :| next in rest && forall x :: x in rest ==> next <= x;
      out, rest := out + [next], rest - {next};
    }
  }

  function Digit(d: int): char
    requires 0 <= d < 10
  {
    "0123456789"[d]
  }

  /** strconv.FormatInt(n, 10) */
  function Decimal(n: int): string
    decreases if n < 0 then 1 else 0, if n < 0 then -n else n
  {
    if n < 0 then "-" + Decimal(-n)
    else if n < 10 then [Digit(n)]
    else Decimal(n / 10) + [Digit(n % 10)]
  }

  lemma {:induction false} DecimalInjective(a: nat, b: nat)
    requires Decimal(a) == Decimal(b)
    ensures a == b
    decreases a
  {
    DecimalNonempty(a);
    DecimalNonempty(b);
    var s, t := Decimal(a), Decimal(b);
    assert s[|s| - 1] == Digit(a % 10) && t[|t| - 1] == Digit(b % 10);
    DigitInjective(a % 10, b % 10);
    if a >= 10 && b >= 10 {
      assert Decimal(a / 10) == s[..|s| - 1] && Decimal(b / 10) == t[..|t| - 1];
      DecimalInjective(a / 10, b / 10);
    }
  }

  /** Different numbers are written differently. */
  lemma DecimalIsInjective(a: int, b: int)
    requires Decimal(a) == Decimal(b)
    ensures a == b
  {
    if a >= 0 { DecimalHead(a); }
    if b >= 0 { DecimalHead(b); }
    if a < 0 && b < 0 {
      assert Decimal(-a) == Decimal(a)[1..] && Decimal(-b) == Decimal(b)[1..];
      DecimalInjective(-a, -b);
    } else if a >= 0 && b >= 0 {
      DecimalInjective(a, b);
    }
  }

  lemma {:induction false} DecimalHead(n: nat)
    ensures Decimal(n) != [] && Decimal(n)[0] != '-'
  {
    if n >= 10 { DecimalHead(n / 10); }
  }

  lemma {:induction false} DecimalNonempty(n: nat)
    ensures |Decimal(n)| >= 1
    ensures n >= 10 <==> |Decimal(n)| >= 2
  {
    if n >= 10 { DecimalNonempty(n / 10); }
  }

  lemma DigitInjective(d: nat, e: nat)
    requires d < 10 && e < 10 && Digit(d) == Digit(e)
    ensures d == e
  {
  }
}
