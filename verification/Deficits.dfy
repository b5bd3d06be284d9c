/**
  Why serving the shortest remaining time first is best: comparing two schedules of the same processes
  by how far their remaining times fall short of every threshold.
 */
module Deficits {

  /** The remaining times of all processes, finished ones included. */
  type Times = seq<nat>

  /** By how much the remaining times fall short of m, added up. */
  ghost function Deficit(r: Times, m: nat): nat {
    if r == [] then 0
    else Deficit(r[..|r| - 1], m) + (if r[|r| - 1] < m then m - r[|r| - 1] else 0)
  }

  ghost function FinishedCount(r: Times): nat {
    if r == [] then 0
    else FinishedCount(r[..|r| - 1]) + (if r[|r| - 1] == 0 then 1 else 0)
  }

  /** How many remaining times are at most m. */
  ghost function Within(r: Times, m: nat): nat {
    if r == [] then 0
    else Within(r[..|r| - 1], m) + (if r[|r| - 1] <= m then 1 else 0)
  }

  /** r is at least as short as q at every threshold. */
  ghost predicate Ahead(r: Times, q: Times) {
    |r| == |q| && forall m: nat :: Deficit(r, m) >= Deficit(q, m)
  }

  lemma {:induction false} DeficitOne(r: Times)
    ensures Deficit(r, 1) == FinishedCount(r)
  {
    if r == [] {
    } else {
      DeficitOne(r[..|r| - 1]);
    }
  }

  /** The schedule ahead has finished at least as many. */
  lemma AheadFinishesMore(r: Times, q: Times)
    requires Ahead(r, q)
    ensures FinishedCount(r) >= FinishedCount(q)
  {
    DeficitOne(r);
    DeficitOne(q);
  }

  // ---------- arrivals ----------

  lemma DeficitAppend(r: Times, x: nat, m: nat)
    ensures Deficit(r + [x], m) == Deficit(r, m) + (if x < m then m - x else 0)
  {
    var u := r + [x];
    assert u[..|u| - 1] == r && u[|u| - 1] == x;
  }

  lemma AheadAfterArrival(r: Times, q: Times, x: nat)
    requires Ahead(r, q)
    ensures Ahead(r + [x], q + [x])
  {
    forall m: nat
      ensures Deficit(r + [x], m) >= Deficit(q + [x], m)
    {
      DeficitAppend(r, x, m);
      DeficitAppend(q, x, m);
    }
  }

  // ---------- one unit of service ----------

  ghost function Served(r: Times, i: nat): Times
    requires i < |r| && r[i] > 0
  {
    r[i := r[i] - 1]
  }

  lemma {:induction false} DeficitServed(r: Times, i: nat, m: nat)
    requires i < |r| && r[i] > 0
    ensures Deficit(Served(r, i), m) == Deficit(r, m) + (if r[i] <= m then 1 else 0)
    decreases |r|
  {
    var n := |r| - 1;
    if i < n {
      assert Served(r, i)[..n] == Served(r[..n], i);
      DeficitServed(r[..n], i, m);
    } else {
      assert Served(r, i)[..n] == r[..n];
    }
  }

  lemma {:induction false} DeficitStep(r: Times, m: nat)
    ensures Deficit(r, m + 1) == Deficit(r, m) + Within(r, m)
    decreases |r|
  {
    if r == [] {
    } else {
      DeficitStep(r[..|r| - 1], m);
    }
  }

  /** Nobody falls short by more than m, and an unfinished process by less. */
  lemma {:induction false} DeficitAtMost(r: Times, m: nat)
    ensures Deficit(r, m) <= m * Within(r, m)
    ensures (exists j :: 0 <= j < |r| && 0 < r[j] <= m) ==> Deficit(r, m) + 1 <= m * Within(r, m)
    decreases |r|
  {
    if r == [] {
    } else {
      var n := |r| - 1;
      var w := Within(r[..n], m);
      DeficitAtMost(r[..n], m);
      if r[n] <= m {
        assert m * (w + 1) == m * w + m;
      }
      if j :| 0 <= j < |r| && 0 < r[j] <= m {
        if j < n {
          assert r[..n][j] == r[j];
        }
      }
    }
  }

  /** If every unfinished process has at least m left, the finished ones alone fall short. */
  lemma {:induction false} DeficitOfFinished(r: Times, m: nat)
    requires forall i :: 0 <= i < |r| && r[i] > 0 ==> r[i] >= m
    ensures Deficit(r, m) == m * FinishedCount(r)
    decreases |r|
  {
    if r == [] {
    } else {
      var n := |r| - 1;
      assert forall i :: 0 <= i < n ==> r[..n][i] == r[i];
      DeficitOfFinished(r[..n], m);
      var z := FinishedCount(r[..n]);
      assert m * (z + 1) == m * z + m;
    }
  }

  lemma Convexity(d: int, n: int, z: int, m: nat)
    requires d + n <= (m + 1) * z && d + 1 <= m * n
    ensures d + 1 <= m * z
  {
    if n <= z {
      assert m * n <= m * z;
    } else {
      assert (m + 1) * z == m * z + z;
    }
  }

  /** Serving the shortest keeps a schedule ahead of one that serves anybody. */
  lemma AheadAfterService(r: Times, q: Times, i: nat, j: nat)
    requires Ahead(r, q) && i < |r| && r[i] > 0 && j < |q| && q[j] > 0
    requires forall k :: 0 <= k < |r| && r[k] > 0 ==> r[i] <= r[k]
    ensures Ahead(Served(r, i), Served(q, j)) && Ahead(Served(r, i), q)
  {
    forall m: nat
      ensures Deficit(Served(r, i), m) >= Deficit(Served(q, j), m)
      ensures Deficit(Served(r, i), m) >= Deficit(q, m)
    {
      DeficitServed(r, i, m);
      DeficitServed(q, j, m);
      if r[i] > m && q[j] <= m {
        DeficitOfFinished(r, m);
        DeficitOfFinished(r, m + 1);
        DeficitStep(q, m);
        DeficitAtMost(q, m);
        Convexity(Deficit(q, m), Within(q, m), FinishedCount(r), m);
      }
    }
  }

  lemma AheadOfIdling(r: Times, q: Times, i: nat)
    requires Ahead(r, q) && i < |r| && r[i] > 0
    ensures Ahead(Served(r, i), q)
  {
    forall m: nat
      ensures Deficit(Served(r, i), m) >= Deficit(q, m)
    {
      DeficitServed(r, i, m);
    }
  }

  lemma {:induction false} DeficitAtMostAll(q: Times, m: nat)
    ensures Deficit(q, m) <= m * |q|
    decreases |q|
  {
    if q == [] {
    } else {
      DeficitAtMostAll(q[..|q| - 1], m);
      assert m * (|q| - 1) + m == m * |q|;
    }
  }

  lemma {:induction false} AllFinishedCount(r: Times)
    requires forall k :: 0 <= k < |r| ==> r[k] == 0
    ensures FinishedCount(r) == |r|
  {
    if r == [] {
    } else {
      AllFinishedCount(r[..|r| - 1]);
    }
  }

  /** A schedule that has finished everything is ahead of every other. */
  lemma FinishedIsAhead(r: Times, q: Times)
    requires |r| == |q| && forall k :: 0 <= k < |r| ==> r[k] == 0
    ensures Ahead(r, q)
  {
    AllFinishedCount(r);
    forall m: nat
      ensures Deficit(r, m) >= Deficit(q, m)
    {
      DeficitOfFinished(r, m);
      DeficitAtMostAll(q, m);
    }
  }
}
