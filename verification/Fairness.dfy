/**
  Who is dispatched when: bounded bypass under round robin, highest priority first under HPF.
  A list is the order in which the ring will serve its processes, the running one counted as last.
 */
module Fairness {
  import opened World

  /** The index of the latest dispatch of process i, or -1. */
  ghost function LastOf(d: seq<Dispatch>, i: nat): (k: int)
    ensures -1 <= k < |d|
    ensures k >= 0 ==> d[k].slot == i
    ensures forall j :: k < j < |d| ==> d[j].slot != i
  {
    if d == [] then -1
    else if d[|d| - 1].slot == i then |d| - 1
    else LastOf(d[..|d| - 1], i)
  }

  /** No process is dispatched twice in [a, b). */
  ghost predicate OnceEach(d: seq<Dispatch>, a: int, b: int) {
    forall x, y :: 0 <= a <= x < y < b <= |d| ==> d[x].slot != d[y].slot
  }

  /** Dispatches i and j are of the same process, with none of it in between. */
  ghost predicate Consecutive(d: seq<Dispatch>, i: nat, j: nat) {
    i < j < |d| && d[i].slot == d[j].slot && forall k :: i < k < j ==> d[k].slot != d[i].slot
  }

  ghost predicate DispatchedBetween(d: seq<Dispatch>, i: nat, j: nat, q: nat) {
    exists k :: i < k < j < |d| && d[k].slot == q
  }

  /**
    Between two consecutive dispatches of a process every other process is dispatched at most once,
    and each one that was present all the time exactly once.
   */
  ghost predicate BoundedBypass(d: seq<Dispatch>) {
    forall i: nat, j: nat :: Consecutive(d, i, j) ==>
      && OnceEach(d, i + 1, j)
      && forall q :: q in d[j].unfinished && q != d[j].slot && q < d[i].received ==> DispatchedBetween(d, i, j, q)
  }

  ghost predicate Recorded(d: seq<Dispatch>, n: nat) {
    forall k :: 0 <= k < |d| ==> d[k].slot < n && d[k].received <= n
  }

  ghost function SlotsBetween(d: seq<Dispatch>, a: nat, b: nat): set<nat>
    requires a <= b <= |d|
  {
    set k | a <= k < b :: d[k].slot
  }

  lemma OneSlotMore(d: seq<Dispatch>, a: nat, b: nat)
    requires a <= b < |d| && OnceEach(d, a, b + 1)
    ensures SlotsBetween(d, a, b + 1) == SlotsBetween(d, a, b) + {d[b].slot}
    ensures d[b].slot !in SlotsBetween(d, a, b)
  {
  }

  lemma {:induction false} SlotsCounted(d: seq<Dispatch>, a: nat, b: nat)
    requires a <= b <= |d| && OnceEach(d, a, b)
    ensures |SlotsBetween(d, a, b)| == b - a
    decreases b
  {
    if a >= b {
    } else {
      SlotsCounted(d, a, b - 1);
      OneSlotMore(d, a, b - 1);
    }
  }

  lemma {:induction false} SmallNumbers(n: nat, s: set<nat>)
    requires forall x :: x in s ==> x < n
    ensures |s| <= n
  {
    if n == 0 {
    } else {
      assert s == (s - {n - 1}) + (s * {n - 1});
      SmallNumbers(n - 1, s - {n - 1});
    }
  }

  /** Of n processes at most n - 1 are dispatched between two consecutive dispatches of one of them. */
  lemma BypassBound(d: seq<Dispatch>, n: nat, i: nat, j: nat)
    requires BoundedBypass(d) && Recorded(d, n) && Consecutive(d, i, j)
    ensures j - i <= n
  {
    var s := SlotsBetween(d, i + 1, j);
    SlotsCounted(d, i + 1, j);
    assert d[i].slot !in s;
    SmallNumbers(n, s + {d[i].slot});
  }

  // ---------- why: the ring serves in the order of the latest dispatches ----------

  /**
    p may stand ahead of q: the latest dispatch of p is the earlier one, and p was not dispatched
    after the reception of a q that is still to be dispatched for the first time.
   */
  ghost predicate MayPrecede(d: seq<Dispatch>, p: nat, q: nat) {
    && p != q
    && (LastOf(d, p) >= 0 && LastOf(d, q) >= 0 ==> LastOf(d, p) < LastOf(d, q))
    && (LastOf(d, p) >= 0 && LastOf(d, q) == -1 ==> d[LastOf(d, p)].received <= q)
  }

  ghost predicate Chain(v: seq<nat>, d: seq<Dispatch>) {
    forall x, y :: 0 <= x < y < |v| ==> MayPrecede(d, v[x], v[y])
  }

  ghost predicate Cross(a: seq<nat>, b: seq<nat>, d: seq<Dispatch>) {
    forall x, y :: 0 <= x < |a| && 0 <= y < |b| ==> MayPrecede(d, a[x], b[y])
  }

  /** Since the latest dispatch of p nobody was dispatched twice. */
  ghost predicate OnceSince(d: seq<Dispatch>, p: nat) {
    LastOf(d, p) >= 0 ==> OnceEach(d, LastOf(d, p) + 1, |d|)
  }

  ghost predicate Fair(v: seq<nat>, d: seq<Dispatch>, n: nat) {
    && Chain(v, d) && Recorded(d, n)
    && (forall x :: 0 <= x < |v| ==> v[x] < n && OnceSince(d, v[x]))
  }

  lemma ChainSplit(a: seq<nat>, b: seq<nat>, d: seq<Dispatch>)
    requires Chain(a + b, d)
    ensures Chain(a, d) && Chain(b, d) && Cross(a, b, d)
  {
    var v := a + b;
    forall x, y | 0 <= x < y < |a|
      ensures MayPrecede(d, a[x], a[y])
    {
      assert MayPrecede(d, v[x], v[y]);
    }
    forall x, y | 0 <= x < y < |b|
      ensures MayPrecede(d, b[x], b[y])
    {
      assert MayPrecede(d, v[|a| + x], v[|a| + y]);
    }
    forall x, y | 0 <= x < |a| && 0 <= y < |b|
      ensures MayPrecede(d, a[x], b[y])
    {
      assert MayPrecede(d, v[x], v[|a| + y]);
    }
  }

  lemma ChainJoin(a: seq<nat>, b: seq<nat>, d: seq<Dispatch>)
    requires Chain(a, d) && Chain(b, d) && Cross(a, b, d)
    ensures Chain(a + b, d)
  {
  }

  /** A newcomer may enter anywhere. */
  lemma FairInsert(a: seq<nat>, b: seq<nat>, d: seq<Dispatch>, n: nat)
    requires Fair(a + b, d, n)
    ensures Fair(a + [n] + b, d, n + 1)
  {
    var v, u := a + b, a + [n] + b;
    ChainSplit(a, b, d);
    forall p: nat | p < n
      ensures MayPrecede(d, p, n) && MayPrecede(d, n, p)
    {
    }
    assert forall x :: 0 <= x < |a| ==> a[x] == v[x];
    assert forall x :: 0 <= x < |b| ==> b[x] == v[|a| + x];
    ChainJoin(a, [n], d);
    ChainJoin(a + [n], b, d);
    forall x | 0 <= x < |u|
      ensures u[x] < n + 1 && OnceSince(d, u[x])
    {
      if x != |a| {
        assert u[x] == v[if x < |a| then x else x - 1];
      }
    }
  }

  lemma LastOfAppend(d: seq<Dispatch>, e: Dispatch, i: nat)
    ensures LastOf(d + [e], i) == if e.slot == i then |d| else LastOf(d, i)
  {
    var u := d + [e];
    assert u[..|u| - 1] == d && u[|u| - 1] == e;
  }

  lemma PrecedeAfterTurn(d: seq<Dispatch>, e: Dispatch, p: nat, q: nat)
    requires p != e.slot
    requires q != e.slot ==> MayPrecede(d, p, q)
    ensures MayPrecede(d + [e], p, q)
  {
    LastOfAppend(d, e, p);
    LastOfAppend(d, e, q);
  }

  lemma OnceAfterTurn(d: seq<Dispatch>, e: Dispatch, p: nat)
    requires OnceSince(d, p) && (p != e.slot ==> MayPrecede(d, e.slot, p))
    ensures OnceSince(d + [e], p)
  {
    var g := d + [e];
    LastOfAppend(d, e, p);
    if p != e.slot && LastOf(d, p) >= 0 {
      var k := LastOf(d, p);
      forall a, b | k + 1 <= a < b < |g|
        ensures g[a].slot != g[b].slot
      {
        assert g[a] == d[a];
        assert OnceEach(d, k + 1, |d|);
        if b < |d| {
          assert g[b] == d[b];
        }
      }
    }
  }

  /** The first in the list is dispatched: it becomes the last. */
  lemma FairTurn(r: seq<nat>, d: seq<Dispatch>, n: nat, e: Dispatch)
    requires Fair([e.slot] + r, d, n) && e.received <= n
    ensures Fair(r + [e.slot], d + [e], n)
  {
    var v, u, g := [e.slot] + r, r + [e.slot], d + [e];
    ChainSplit([e.slot], r, d);
    assert v[0] == e.slot;
    forall x | 0 <= x < |r|
      ensures v[x + 1] == r[x] && u[x] == r[x] && MayPrecede(d, e.slot, r[x])
    {
      assert MayPrecede(d, [e.slot][0], r[x]);
    }
    forall x, y | 0 <= x < y < |u|
      ensures MayPrecede(g, u[x], u[y])
    {
      if y < |r| {
        assert MayPrecede(d, r[x], r[y]);
      }
      PrecedeAfterTurn(d, e, u[x], u[y]);
    }
    forall x | 0 <= x < |u|
      ensures u[x] < n && OnceSince(g, u[x])
    {
      assert OnceSince(d, v[if x < |r| then x + 1 else 0]);
      OnceAfterTurn(d, e, u[x]);
    }
  }

  /** The running process leaves for good. */
  lemma FairDrop(r: seq<nat>, c: nat, d: seq<Dispatch>, n: nat)
    requires Fair(r + [c], d, n)
    ensures Fair(r, d, n)
  {
    ChainSplit(r, [c], d);
    forall x | 0 <= x < |r|
      ensures r[x] < n && OnceSince(d, r[x])
    {
      assert (r + [c])[x] == r[x];
    }
  }

  /** The next dispatch is fair too. */
  lemma BypassTurn(v: seq<nat>, d: seq<Dispatch>, n: nat, e: Dispatch)
    requires Fair(v, d, n) && v != [] && e.slot == v[0] && BoundedBypass(d)
    requires forall q :: q in e.unfinished ==> q in v
    ensures BoundedBypass(d + [e])
  {
    var g := d + [e];
    forall i: nat, j: nat | Consecutive(g, i, j)
      ensures OnceEach(g, i + 1, j)
      ensures forall q :: q in g[j].unfinished && q != g[j].slot && q < g[i].received ==> DispatchedBetween(g, i, j, q)
    {
      if j < |d| {
        BypassBefore(d, e, i, j);
      } else {
        BypassNow(v, d, n, e, i);
      }
    }
  }

  lemma BypassBefore(d: seq<Dispatch>, e: Dispatch, i: nat, j: nat)
    requires BoundedBypass(d) && j < |d| && Consecutive(d + [e], i, j)
    ensures OnceEach(d + [e], i + 1, j)
    ensures forall q :: q in d[j].unfinished && q != d[j].slot && q < d[i].received ==>
              DispatchedBetween(d + [e], i, j, q)
  {
    var g := d + [e];
    assert forall k :: 0 <= k < |d| ==> g[k] == d[k];
    forall k | i < k < j
      ensures d[k].slot != d[i].slot
    {
      assert g[k].slot != g[i].slot;
    }
    assert Consecutive(d, i, j);
    forall q | q in d[j].unfinished && q != d[j].slot && q < d[i].received
      ensures DispatchedBetween(g, i, j, q)
    {
      assert DispatchedBetween(d, i, j, q);
      var k :| i < k < j && d[k].slot == q;
      assert g[k].slot == q;
    }
    assert OnceEach(d, i + 1, j);
  }

  lemma BypassNow(v: seq<nat>, d: seq<Dispatch>, n: nat, e: Dispatch, i: nat)
    requires Fair(v, d, n) && v != [] && e.slot == v[0]
    requires forall q :: q in e.unfinished ==> q in v
    requires Consecutive(d + [e], i, |d|)
    ensures OnceEach(d + [e], i + 1, |d|)
    ensures forall q :: q in e.unfinished && q != e.slot && q < (d + [e])[i].received ==>
              DispatchedBetween(d + [e], i, |d|, q)
  {
    var g := d + [e];
    assert g[|d|] == e && g[i].slot == d[i].slot;
    assert forall k :: i < k < |d| ==> g[k] == d[k];
    assert LastOf(d, e.slot) == i;
    assert OnceSince(d, v[0]);
    forall q | q in e.unfinished && q != e.slot && q < g[i].received
      ensures DispatchedBetween(g, i, |d|, q)
    {
      var y :| 0 <= y < |v| && v[y] == q;
      assert MayPrecede(d, v[0], v[y]);
      var k := LastOf(d, q);
      assert g[k].slot == q;
    }
  }
}
