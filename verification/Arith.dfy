/** Counters of unbounded width and the fixed-width views the hardware sees of them. */
module Arith {

  const W16: nat := 0x1_0000      // producer and consumer counters of SQ and RQ
  const W24: nat := 0x100_0000    // CQ consumer counter

  /** The ring sizes: `x & (n - 1)` in the source is `x % n` exactly for these. */
  predicate Pow2(n: nat) {
    n == 1 || (n > 1 && n % 2 == 0 && Pow2(n / 2))
  }

  lemma Pow2Double(n: nat)
    requires Pow2(n)
    ensures Pow2(2 * n)
  {}

  lemma Pow2Widths()
    ensures Pow2(W16) && Pow2(W24)
  {
    Pow2Double(1); Pow2Double(2); Pow2Double(4); Pow2Double(8);
    Pow2Double(16); Pow2Double(32); Pow2Double(64); Pow2Double(128);
    Pow2Double(256); Pow2Double(512); Pow2Double(1024); Pow2Double(2048);
    Pow2Double(4096); Pow2Double(8192); Pow2Double(16384); Pow2Double(32768);
    Pow2Double(0x1_0000); Pow2Double(0x2_0000); Pow2Double(0x4_0000); Pow2Double(0x8_0000);
    Pow2Double(0x10_0000); Pow2Double(0x20_0000); Pow2Double(0x40_0000); Pow2Double(0x80_0000);
  }

  lemma {:induction false} Pow2Divides(n: nat, m: nat)
    requires Pow2(n) && Pow2(m) && n <= m
    ensures m % n == 0
  {
    if n > 1 {
      Pow2Divides(n / 2, m / 2);
      var q := (m / 2) / (n / 2);
      assert m / 2 == q * (n / 2);
      assert m == q * n;
      MulMod(q, n);
    }
  }

  lemma MulMod(q: nat, n: nat)
    requires n > 0
    ensures (q * n) % n == 0
  {
    DivModUnique(q * n, n, q, 0);
  }

  lemma DivModUnique(x: int, n: int, q: int, r: int)
    requires n > 0 && 0 <= r < n && x == q * n + r
    ensures x / n == q && x % n == r
  {
    var q', r' := x / n, x % n;
    assert x == q' * n + r';
    assert (q' - q) * n == r - r';
    if q' < q {
      MulLe(q' - q, -1, n);
    } else if q' > q {
      MulLe(1, q' - q, n);
    }
  }

  lemma MulLe(a: int, b: int, n: int)
    requires a <= b && n >= 0
    ensures a * n <= b * n
  {}

  /** Dropping high bits first does not change a slot number. */
  lemma ModMod(x: int, m: int, n: int)
    requires n > 0 && m > 0 && m % n == 0
    ensures (x % m) % n == x % n
  {
    var a, b := x / m, m / n;
    assert x == a * m + x % m;
    assert m == b * n;
    var r := (x % m) % n;
    var q := (x % m) / n;
    assert x == (a * b + q) * n + r by {
      assert a * m == a * (b * n) == (a * b) * n;
    }
    DivModUnique(x, n, a * b + q, r);
  }

  /** Two counters less than one ring apart sit in different slots. */
  lemma SlotsDiffer(a: int, b: int, n: int)
    requires n > 0 && a < b < a + n
    ensures a % n != b % n
  {
    if a % n == b % n {
      var d := b / n - a / n;
      assert b - a == d * n;
      if d <= 0 { MulLe(d, 0, n); } else { MulLe(1, d, n); }
    }
  }

  lemma SlotShift(a: int, n: int)
    requires n > 0
    ensures (a + n) % n == a % n && (a + n) / n == a / n + 1
  {
    DivModUnique(a + n, n, a / n + 1, a % n);
  }

  /** The truncated difference of two counters is the real one while they are close. */
  lemma DiffView(a: int, b: int, m: int)
    requires m > 0 && a <= b < a + m
    ensures (b % m - a % m) % m == b - a
  {
    var d := b / m - a / m;
    assert b % m - a % m == -d * m + (b - a);
    DivModUnique(b % m - a % m, m, -d, b - a);
  }

  lemma StepDivMod(x: nat, n: nat)
    requires n > 0
    ensures (x + 1) % n == 0 ==> (x + 1) / n == x / n + 1
    ensures (x + 1) % n != 0 ==> (x + 1) / n == x / n
  {
    if x % n == n - 1 {
      DivModUnique(x + 1, n, x / n + 1, 0);
    } else {
      DivModUnique(x + 1, n, x / n, x % n + 1);
    }
  }

  lemma AddMod(x: int, y: int, k: int, m: int)
    requires m > 0 && x % m == y % m
    ensures (x + k) % m == (y + k) % m
  {
    var d := x / m - y / m;
    assert x + k == d * m + (y + k);
    DivModUnique(x + k, m, d + (y + k) / m, (y + k) % m) by {
      assert d * m + (y + k) / m * m == (d + (y + k) / m) * m;
    }
  }

  /** No more pairwise distinct numbers fit below a bound than the bound. */
  lemma {:induction false} Pigeonhole(xs: seq<int>, n: nat)
    requires forall i :: 0 <= i < |xs| ==> 0 <= xs[i] < n
    requires forall i, j :: 0 <= i < j < |xs| ==> xs[i] != xs[j]
    ensures |xs| <= n
  {
    var s := set i | 0 <= i < |xs| :: xs[i];
    SeqSetSize(xs, s);
    RangeSize(n);
    SubsetSize<int>(s, Range(n));
  }

  lemma {:induction false} SeqSetSize(xs: seq<int>, s: set<int>)
    requires forall i, j :: 0 <= i < j < |xs| ==> xs[i] != xs[j]
    requires s == set i | 0 <= i < |xs| :: xs[i]
    ensures |s| == |xs|
  {
    if |xs| > 0 {
      var l := |xs| - 1;
      var ys := xs[..l];
      var t := set i | 0 <= i < |ys| :: ys[i];
      SeqSetSize(ys, t);
      assert s == t + {xs[l]};
      assert xs[l] !in t;
    }
  }

  /** The numbers below n. */
  function Range(n: nat): (r: set<nat>)
    ensures forall k: nat :: k in r <==> k < n
  {
    if n == 0 then {} else Range(n - 1) + {n - 1}
  }

  lemma {:induction false} RangeSize(n: nat)
    ensures |Range(n)| == n
  {
    if n > 0 {
      RangeSize(n - 1);
    }
  }

  lemma {:induction false} SubsetSize<T>(a: set<T>, b: set<T>)
    requires a <= b
    ensures |a| <= |b|
  {
    if a != {} {
      var x :| x in a;
      SubsetSize(a - {x}, b - {x});
    }
  }

  /** A one-to-one map from a onto b: they have as many elements. */
  lemma {:induction false} SameSize<A, B>(a: set<A>, b: set<B>, f: map<A, B>)
    requires f.Keys == a && f.Values == b
    requires forall x, y :: x in a && y in a && f[x] == f[y] ==> x == y
    ensures |a| == |b|
  {
    if a != {} {
      var x :| x in a;
      var g := f - {x};
      forall y | y in b - {f[x]}
        ensures y in g.Values
      {
        var z :| z in f && f[z] == y;
        assert z in g && g[z] == y;
      }
      assert g.Values == b - {f[x]};
      SameSize(a - {x}, b - {f[x]}, g);
    }
  }
}
