/** Numbers written in a radix, most significant digit first, and rewritten in another. */
module Radix {
  import opened FixedPoint

  ghost predicate Below(ds: seq<nat>, base: nat) {
    forall i :: 0 <= i < |ds| ==> ds[i] < base
  }

  /** The number a digit string denotes; leading zeros add nothing. */
  function Num(ds: seq<nat>, base: nat): nat {
    if ds == [] then 0 else Num(ds[..|ds| - 1], base) * base + ds[|ds| - 1]
  }

  /** The shortest digits of a number; none for zero. */
  function Rep(n: nat, base: nat): (ds: seq<nat>)
    requires base >= 2
    decreases n
  {
    if n == 0 then []
    else
      Shrinks(n, base);
      Rep(n / base, base) + [n % base]
  }

  lemma Shrinks(n: nat, base: nat)
    requires n > 0 && base >= 2
    ensures n / base < n && n == (n / base) * base + n % base
  {
  }

  lemma {:induction false} RepDigits(n: nat, base: nat)
    requires base >= 2
    ensures Below(Rep(n, base), base)
    ensures n > 0 ==> Rep(n, base) != [] && Rep(n, base)[0] != 0
    ensures Num(Rep(n, base), base) == n
    decreases n
  {
    if n > 0 {
      Shrinks(n, base);
      RepDigits(n / base, base);
      var ds := Rep(n / base, base);
      assert Rep(n, base)[..|ds|] == ds;
      if n / base == 0 {
        assert n == n % base;
      }
    }
  }

  function Zeros(k: nat): (ds: seq<nat>)
    ensures |ds| == k && forall i :: 0 <= i < k ==> ds[i] == 0
  {
    seq(k, _ => 0)
  }

  /** How many zeros a digit string starts with. */
  function Lead(ds: seq<nat>): (k: nat)
    ensures k <= |ds| && (forall i :: 0 <= i < k ==> ds[i] == 0) && (k < |ds| ==> ds[k] != 0)
  {
    if ds == [] || ds[0] != 0 then 0 else 1 + Lead(ds[1..])
  }

  lemma LeadIs(ds: seq<nat>, k: nat)
    requires k <= |ds| && (forall i :: 0 <= i < k ==> ds[i] == 0) && (k < |ds| ==> ds[k] != 0)
    ensures Lead(ds) == k
  {
  }

  lemma {:induction false} NumZeros(k: nat, ds: seq<nat>, base: nat)
    ensures Num(Zeros(k) + ds, base) == Num(ds, base)
    decreases k + |ds|
  {
    var all := Zeros(k) + ds;
    if ds != [] {
      assert all[..|all| - 1] == Zeros(k) + ds[..|ds| - 1];
      NumZeros(k, ds[..|ds| - 1], base);
    } else if k > 0 {
      assert all[..|all| - 1] == Zeros(k - 1) + ds;
      NumZeros(k - 1, ds, base);
    }
  }

  lemma SplitLast(n: nat, d: nat, base: nat)
    requires d < base
    ensures (n * base + d) / base == n && (n * base + d) % base == d
  {
    var x := n * base + d;
    assert (n + 1) * base == n * base + base;
    QuotientLargest(x, base, n);
    QuotientSmallest(x, base, n + 1);
  }

  /** Digits without a leading zero are the shortest digits of their number. */
  lemma {:induction false} RepNum(ds: seq<nat>, base: nat)
    requires base >= 2 && Below(ds, base) && (ds == [] || ds[0] != 0)
    ensures Rep(Num(ds, base), base) == ds
    ensures ds != [] ==> Num(ds, base) > 0
    decreases |ds|
  {
    if ds != [] {
      var front, d := ds[..|ds| - 1], ds[|ds| - 1];
      RepNum(front, base);
      SplitLast(Num(front, base), d, base);
      assert ds == front + [d];
      if front != [] {
        assert Num(front, base) * base >= 1;
      }
    }
  }

  /** Rewrite digits from one radix to another, keeping the leading zeros. */
  function Recode(ds: seq<nat>, from: nat, to: nat): seq<nat>
    requires to >= 2
  {
    Zeros(Lead(ds)) + Rep(Num(ds, from), to)
  }

  /** Any digit string is its leading zeros and the shortest digits of its number. */
  lemma LeadAndRep(ds: seq<nat>, base: nat)
    requires base >= 2 && Below(ds, base)
    ensures ds == Zeros(Lead(ds)) + Rep(Num(ds, base), base)
  {
    var k := Lead(ds);
    var tail := ds[k..];
    assert ds == Zeros(k) + tail;
    NumZeros(k, tail, base);
    RepNum(tail, base);
  }

  /** Rewriting to another radix and back gives the same digits, leading zeros included. */
  lemma RecodeInverse(ds: seq<nat>, from: nat, to: nat)
    requires from >= 2 && to >= 2 && Below(ds, from)
    ensures Below(Recode(ds, from, to), to)
    ensures Recode(Recode(ds, from, to), to, from) == ds
  {
    var n, k := Num(ds, from), Lead(ds);
    var r := Rep(n, to);
    RepDigits(n, to);
    NumZeros(k, r, to);
    LeadIs(Zeros(k) + r, k);
    LeadAndRep(ds, from);
  }

  /** Rewriting keeps the number and the leading zeros, and nothing else is free. */
  lemma RecodeValue(ds: seq<nat>, from: nat, to: nat)
    requires from >= 2 && to >= 2 && Below(ds, from)
    ensures Num(Recode(ds, from, to), to) == Num(ds, from) && Lead(Recode(ds, from, to)) == Lead(ds)
  {
    var r := Rep(Num(ds, from), to);
    RepDigits(Num(ds, from), to);
    NumZeros(Lead(ds), r, to);
    LeadIs(Zeros(Lead(ds)) + r, Lead(ds));
  }
}
