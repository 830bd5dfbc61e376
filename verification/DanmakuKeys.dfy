/** The limiter keys of internal/danmaku/service.go and the digit loop that builds them. */
module DanmakuKeys {
  import opened Basics

  const BUFFER: nat := 20
  const PREFIX := "live:limit:danmaku:user:"

  function Pow10(k: nat): nat {
    if k == 0 then 1 else 10 * Pow10(k - 1)
  }

  lemma Pow10Values()
    ensures Pow10(19) == 10000000000000000000
  {
    assert Pow10(4) == 10000;
    assert Pow10(8) == 100000000;
    assert Pow10(12) == 1000000000000;
    assert Pow10(16) == 10000000000000000;
  }

  /** What the loop computes: the decimal digits, or nothing at all for a negative number. */
  function Itoa(v: int): string {
    if v < 0 then "" else Decimal(v)
  }

  /** The digits of `v` in front of those already written. */
  function Prepend(v: nat, tail: string): string {
    if v == 0 then tail else Prepend(v / 10, [Digit(v % 10)] + tail)
  }

  lemma {:induction false} PrependIsDecimal(v: nat, tail: string)
    requires v > 0
    ensures Prepend(v, tail) == Decimal(v) + tail
  {
    if v >= 10 {
      PrependIsDecimal(v / 10, [Digit(v % 10)] + tail);
      assert Decimal(v / 10) + ([Digit(v % 10)] + tail) == Decimal(v) + tail;
    } else {
      assert Prepend(0, [Digit(v)] + tail) == [Digit(v)] + tail;
    }
  }

  lemma FewerDigits(v: nat, k: nat)
    requires 0 < v < Pow10(k)
    ensures k >= 1 && v / 10 < Pow10(k - 1)
  {
  }

  /** The 20-byte buffer is filled from the back and never runs out. */
  method ItoaLoop(id: int) returns (s: string)
    requires -MAX_INT64 - 1 <= id <= MAX_INT64
    ensures s == Itoa(id)
  {
    if id == 0 { return "0"; }
    var v := id;
    var b := new char[BUFFER];
    var i := b.Length;
    Pow10Values();
    while v > 0
      invariant 1 <= i <= b.Length && v < Pow10(i - 1)
      invariant id < 0 ==> v == id && i == b.Length
      invariant id > 0 ==> v >= 0 && Prepend(v, b[i..]) == Prepend(id, "")
      decreases v
    {
      FewerDigits(v, i - 1);
      i := i - 1;
      ghost var rest := b[i + 1..];
      b[i] := Digit(v % 10);
      assert b[i..] == [Digit(v % 10)] + rest;
      v := v / 10;
    }
    s := b[i..];
    if id > 0 {
      PrependIsDecimal(id, "");
      assert Decimal(id) + "" == Decimal(id);
    }
  }

  function UserKey(userId: int): string {
    PREFIX + Itoa(userId)
  }

  /** Two users share a limiter key exactly when they are the same user or both ids are negative. */
  lemma KeysCollideIff(a: int, b: int)
    ensures UserKey(a) == UserKey(b) <==> a == b || (a < 0 && b < 0)
  {
    assert UserKey(a)[|PREFIX|..] == Itoa(a) && UserKey(b)[|PREFIX|..] == Itoa(b);
    if a >= 0 { DecimalNonempty(a); }
    if b >= 0 { DecimalNonempty(b); }
    if a >= 0 && b >= 0 && UserKey(a) == UserKey(b) { DecimalInjective(a, b); }
  }
}
