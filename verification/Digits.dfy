/** Positional notation, most significant digit first. */
module Digits {

  predicate IsBase(base: nat) {
    base == 10 || base == 32 || base == 256
  }

  /** `base * n`, one constant factor at a time. */
  function Times(base: nat, n: nat): nat
    requires IsBase(base)
  {
    if base == 10 then 10 * n else if base == 32 then 32 * n else 256 * n
  }

  /** `n` followed by `m` zero digits. */
  function Shift(base: nat, n: nat, m: nat): (r: nat)
    requires IsBase(base)
    ensures n > 0 ==> r > 0
    decreases m
  {
    if m == 0 then n else Times(base, Shift(base, n, m - 1))
  }

  function Pow(base: nat, k: nat): (p: nat)
    requires IsBase(base)
    ensures p > 0
  {
    Shift(base, 1, k)
  }

  predicate Below(base: nat, ds: seq<nat>) {
    forall i :: 0 <= i < |ds| ==> ds[i] < base
  }

  function ValueOf(base: nat, ds: seq<nat>): nat
    requires IsBase(base)
  {
    if ds == [] then 0 else Times(base, ValueOf(base, ds[..|ds| - 1])) + ds[|ds| - 1]
  }

  /** `n / base`, one constant divisor at a time. */
  function Quot(base: nat, n: nat): (q: nat)
    requires IsBase(base)
  {
    if base == 10 then n / 10 else if base == 32 then n / 32 else n / 256
  }

  function Rem(base: nat, n: nat): (r: nat)
    requires IsBase(base)
    ensures r < base
  {
    if base == 10 then n % 10 else if base == 32 then n % 32 else n % 256
  }

  lemma Divides(base: nat, n: nat)
    requires IsBase(base)
    ensures Times(base, Quot(base, n)) + Rem(base, n) == n
  {
    if base == 10 {
    } else if base == 32 {
    }
  }

  lemma Divided(base: nat, q: nat, r: nat)
    requires IsBase(base) && r < base
    ensures Quot(base, Times(base, q) + r) == q && Rem(base, Times(base, q) + r) == r
  {
  }

  lemma QuotBelow(base: nat, n: nat, k: nat)
    requires IsBase(base) && k > 0 && n < Pow(base, k)
    ensures Quot(base, n) < Pow(base, k - 1)
  {
    if base == 10 {
    } else if base == 32 {
    }
  }

  /** The `k` last digits of `n`. */
  function DigitsOf(base: nat, n: nat, k: nat): (ds: seq<nat>)
    requires IsBase(base)
    ensures |ds| == k && Below(base, ds)
    decreases k
  {
    if k == 0 then [] else DigitsOf(base, Quot(base, n), k - 1) + [Rem(base, n)]
  }

  lemma {:induction false} ValueOfDigits(base: nat, n: nat, k: nat)
    requires IsBase(base) && n < Pow(base, k)
    ensures ValueOf(base, DigitsOf(base, n, k)) == n
    decreases k
  {
    if k > 0 {
      QuotBelow(base, n, k);
      ValueOfDigits(base, Quot(base, n), k - 1);
      Divides(base, n);
      var ds := DigitsOf(base, n, k);
      assert ds[..|ds| - 1] == DigitsOf(base, Quot(base, n), k - 1);
    }
  }

  lemma {:induction false} DigitsOfValue(base: nat, ds: seq<nat>)
    requires IsBase(base) && Below(base, ds)
    ensures DigitsOf(base, ValueOf(base, ds), |ds|) == ds
    ensures ValueOf(base, ds) < Pow(base, |ds|)
    decreases |ds|
  {
    if ds != [] {
      var init, last := ds[..|ds| - 1], ds[|ds| - 1];
      DigitsOfValue(base, init);
      Divided(base, ValueOf(base, init), last);
      assert init + [last] == ds;
      BelowNext(base, ValueOf(base, init), last, Pow(base, |init|));
    }
  }

  lemma BelowNext(base: nat, v: nat, d: nat, p: nat)
    requires IsBase(base) && d < base && v < p
    ensures Times(base, v) + d < Times(base, p)
  {
  }

  /** Appending zero digits. */
  lemma {:induction false} ShiftedDigits(base: nat, n: nat, k: nat, m: nat)
    requires IsBase(base)
    ensures DigitsOf(base, Shift(base, n, m), k + m)[..k] == DigitsOf(base, n, k)
    decreases m
  {
    if m > 0 {
      ShiftedDigits(base, n, k, m - 1);
      Divided(base, Shift(base, n, m - 1), 0);
    }
  }
}
