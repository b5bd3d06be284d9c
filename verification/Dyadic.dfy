/**
  Powers of two, integer logarithms and exclusive-or: the arithmetic behind the buddy allocator.
  Block sizes are powers of two that divide the block's start.
 */
module Dyadic {

  function Pow2(k: nat): (p: nat)
    ensures p >= 1
  {
    if k == 0 then 1 else 2 * Pow2(k - 1)
  }

  /** (int)ceil(log2(n)) for n >= 1: the least k with n <= 2^k. */
  function CeilLog2(n: nat): (k: nat)
    requires n >= 1
    ensures n <= Pow2(k)
    ensures k > 0 ==> Pow2(k - 1) < n
  {
    if n == 1 then 0 else
      var h := CeilLog2((n + 1) / 2);
      assert h > 0 ==> Pow2(h) == 2 * Pow2(h - 1);
      h + 1
  }

  /** (int)log2(n) for n >= 1: the greatest k with 2^k <= n. */
  function FloorLog2(n: nat): (k: nat)
    requires n >= 1
    ensures Pow2(k) <= n < 2 * Pow2(k)
  {
    if n == 1 then 0 else 1 + FloorLog2(n / 2)
  }

  ghost predicate IsPow2(n: nat) {
    n >= 1 && Pow2(FloorLog2(n)) == n
  }

  /** Bitwise exclusive-or of two non-negative ints. */
  function Xor(a: nat, b: nat): nat
    decreases a + b
  {
    if a == 0 && b == 0 then 0
    else 2 * Xor(a / 2, b / 2) + (if a % 2 == b % 2 then 0 else 1)
  }

  lemma {:induction false} Pow2Monotone(j: nat, k: nat)
    requires j <= k
    ensures Pow2(j) <= Pow2(k)
    decreases k
  {
    if j >= k {
    } else {
      Pow2Monotone(j, k - 1);
    }
  }

  lemma Pow2StrictlyMonotone(j: nat, k: nat)
    requires j < k
    ensures 2 * Pow2(j) <= Pow2(k)
  {
    Pow2Monotone(j, k - 1);
  }

  lemma FloorLog2Pow2(k: nat)
    ensures FloorLog2(Pow2(k)) == k
    ensures IsPow2(Pow2(k))
  {
    var f := FloorLog2(Pow2(k));
    if f < k {
      Pow2StrictlyMonotone(f, k);
    } else if k < f {
      Pow2StrictlyMonotone(k, f);
    }
  }

  lemma {:induction false} CeilLog2Below(n: nat, k: nat)
    requires 1 <= n <= Pow2(k)
    ensures CeilLog2(n) <= k
  {
    if CeilLog2(n) > k {
      Pow2Monotone(k, CeilLog2(n) - 1);
    }
  }

  lemma Halving(p: nat)
    requires IsPow2(p) && p > 1
    ensures p % 2 == 0 && IsPow2(p / 2)
  {
    FloorLog2Pow2(FloorLog2(p) - 1);
  }

  lemma Doubling(p: nat)
    requires IsPow2(p)
    ensures IsPow2(2 * p)
  {
    FloorLog2Pow2(FloorLog2(p) + 1);
  }

  // ---- divisibility ----

  lemma MulBounds(d: int, p: nat)
    ensures d >= 1 ==> d * p >= p
    ensures d <= -1 ==> d * p <= -(p as int)
    ensures d == 0 ==> d * p == 0
  {
  }

  lemma MultipleMod(q: int, p: nat)
    requires p >= 1
    ensures (q * p) % p == 0
  {
    var r := q * p;
    assert r == p * (r / p) + r % p;
    var d := q - r / p;
    assert d * p == r % p by {
      assert (q - r / p) * p == q * p - (r / p) * p;
    }
    MulBounds(d, p);
  }

  lemma Divides(a: nat, p: nat) returns (q: nat)
    requires p >= 1 && a % p == 0
    ensures a == q * p
  {
    q := a / p;
    assert a == p * (a / p) + a % p;
  }

  /** Two multiples of p that differ lie at least p apart. */
  lemma MultiplesApart(a: nat, b: nat, p: nat)
    requires p >= 1 && a % p == 0 && b % p == 0 && a < b
    ensures a + p <= b
  {
    var x := Divides(a, p);
    var y := Divides(b, p);
    MulBounds(y - x, p);
    assert (y - x) * p == b - a;
  }

  lemma DividesSum(a: nat, b: nat, p: nat)
    requires p >= 1 && a % p == 0 && b % p == 0
    ensures (a + b) % p == 0
    ensures a >= b ==> (a - b) % p == 0
  {
    var x := Divides(a, p);
    var y := Divides(b, p);
    MultipleMod(x + y, p);
    assert (x + y) * p == a + b;
    MultipleMod(x - y, p);
    assert (x - y) * p == a - b;
  }

  lemma DividesTransitive(a: nat, q: nat, p: nat)
    requires p >= 1 && q >= 1 && a % q == 0 && q % p == 0
    ensures a % p == 0
  {
    var x := Divides(a, q);
    var y := Divides(q, p);
    assert a == (x * y) * p by {
      assert x * (y * p) == (x * y) * p;
    }
    MultipleMod(x * y, p);
  }

  lemma {:induction false} Pow2Divides(j: nat, k: nat)
    requires j <= k
    ensures Pow2(k) % Pow2(j) == 0
    decreases k
  {
    if j == k {
      MultipleMod(1, Pow2(j));
    } else {
      Pow2Divides(j, k - 1);
      DividesSum(Pow2(k - 1), Pow2(k - 1), Pow2(j));
    }
  }

  /** Of two powers of two, the smaller divides the larger, and at most half of it if they differ. */
  lemma PowersDivide(p: nat, q: nat)
    requires IsPow2(p) && IsPow2(q) && p <= q
    ensures q % p == 0
    ensures p < q ==> 2 * p <= q
  {
    var j, k := FloorLog2(p), FloorLog2(q);
    if j > k {
      Pow2StrictlyMonotone(k, j);
    }
    Pow2Divides(j, k);
    if j < k {
      Pow2StrictlyMonotone(j, k);
    }
  }

  /** A multiple of p is either a multiple of 2p, or becomes one when p is added or subtracted. */
  lemma OddMultiple(a: nat, p: nat)
    requires p >= 1 && a % p == 0
    ensures a % (2 * p) == 0 || (a % (2 * p) == p && a >= p && (a - p) % (2 * p) == 0)
    ensures a % (2 * p) == 0 ==> (a + p) % (2 * p) == p
  {
    var x := Divides(a, p);
    var h := x / 2;
    if x % 2 == 0 {
      assert a == h * (2 * p) by {
        assert (2 * h) * p == h * (2 * p);
      }
      MultipleMod(h, 2 * p);
      Remainder(h, p, 2 * p);
    } else {
      assert a == h * (2 * p) + p by {
        assert (2 * h + 1) * p == h * (2 * p) + p;
      }
      Remainder(h, p, 2 * p);
      MultipleMod(h, 2 * p);
    }
  }

  lemma Remainder(q: nat, r: nat, m: nat)
    requires r < m
    ensures (q * m + r) % m == r
  {
    var a := q * m + r;
    assert a == m * (a / m) + a % m;
    var d := q - a / m;
    assert d * m == a % m - r by {
      assert (q - a / m) * m == q * m - (a / m) * m;
    }
    MulBounds(d, m);
  }

  lemma {:induction false} XorZero(a: nat)
    ensures Xor(a, 0) == a
    decreases a
  {
    if a == 0 {
    } else {
      XorZero(a / 2);
    }
  }

  /**
    The exclusive-or of an aligned start with its size is the start of the buddy: the block of the
    same size that together with this one makes up an aligned block of twice the size.
   */
  lemma {:induction false} XorIsBuddy(start: nat, size: nat)
    requires IsPow2(size) && start % size == 0
    ensures start % (2 * size) == 0 ==> Xor(start, size) == start + size
    ensures start % (2 * size) != 0 ==> start >= size && Xor(start, size) == start - size
    decreases size
  {
    OddMultiple(start, size);
    if size == 1 {
      XorZero(start / 2);
      assert Xor(start / 2, 0) == start / 2;
    } else {
      Halving(size);
      var h := size / 2;
      var x := Divides(start, size);
      assert start == 2 * (x * h) by {
        assert x * (2 * h) == 2 * (x * h);
      }
      MultipleMod(x, h);
      XorIsBuddy(start / 2, h);
      HalfAligned(start, size);
    }
  }

  lemma HalfAligned(start: nat, size: nat)
    requires size >= 2 && size % 2 == 0 && start % 2 == 0
    ensures start % (2 * size) == 0 <==> (start / 2) % size == 0
  {
    if start % (2 * size) == 0 {
      var x := Divides(start, 2 * size);
      assert start / 2 == x * size by {
        assert x * (2 * size) == 2 * (x * size);
      }
      MultipleMod(x, size);
    }
    if (start / 2) % size == 0 {
      var x := Divides(start / 2, size);
      assert start == x * (2 * size) by {
        assert x * (2 * size) == 2 * (x * size);
      }
      MultipleMod(x, 2 * size);
    }
  }
}
