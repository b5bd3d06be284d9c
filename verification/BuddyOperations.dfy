/**
  Allocation and release on the block list, and what whole histories of them keep.
 */
module BuddyOperations {
  import opened Dyadic
  import opened BuddyLayout
  import opened Options

  // ---------- get_smallest_block_available ----------

  /** The scan for the smallest free chunk of at least n units; the strict comparison keeps the leftmost. */
  function BestFit(s: Layout, n: nat): (r: Option<nat>)
    ensures r.None? <==> !CanServe(s, n)
    ensures r.Some? ==> r.value < |s| && Fits(s[r.value], n)
    ensures r.Some? ==> forall j :: 0 <= j < |s| && Fits(s[j], n) ==>
                          s[r.value].size < s[j].size || (s[r.value].size == s[j].size && r.value <= j)
  {
    if s == [] then None else
      var last := |s| - 1;
      var b := BestFit(s[..last], n);
      if Fits(s[last], n) && (b.None? || s[last].size < s[b.value].size) then Some(last) else
        assert b.None? ==> forall j :: 0 <= j < last ==> s[..last][j] == s[j];
        b
  }

  lemma BestFitStep(s: Layout, i: nat, n: nat)
    requires i < |s|
    ensures var b := BestFit(s[..i], n);
            BestFit(s[..i + 1], n) ==
            if Fits(s[i], n) && (b.None? || s[i].size < s[b.value].size) then Some(i) else b
  {
    assert s[..i + 1][..i] == s[..i];
  }

  // ---------- split_block, allocate_memory ----------

  function Split(s: Layout, i: nat): Layout
    requires i < |s|
  {
    var h := s[i].size / 2;
    s[..i] + [Chunk(s[i].start, h, s[i].requested), Chunk(s[i].start + h, h, 0)] + s[i + 1..]
  }

  /** Splits chunk i until (int)log2 of its size is the given order. */
  function SplitTo(s: Layout, i: nat, order: nat): (t: Layout)
    requires i < |s| && s[i].size >= 1 && order <= FloorLog2(s[i].size)
    ensures i < |t|
    decreases s[i].size
  {
    if FloorLog2(s[i].size) == order then s else SplitTo(Split(s, i), i, order)
  }

  function Allocate(s: Layout, n: nat): Option<(Layout, nat)>
    requires AllAligned(s) && n >= 1
  {
    match BestFit(s, n)
    case None => None
    case Some(i) =>
      EnoughRoom(s[i], n);
      var t := SplitTo(s, i, CeilLog2(n));
      Some((t[i := t[i].(requested := n)], i))
  }

  lemma EnoughRoom(c: Chunk, n: nat)
    requires Aligned(c) && 1 <= n <= c.size
    ensures CeilLog2(n) <= FloorLog2(c.size)
  {
    CeilLog2Below(n, FloorLog2(c.size));
  }

  // ---------- merge_block, deallocate_memory ----------

  function MergeRight(s: Layout, i: nat): Layout
    requires i + 1 < |s|
  {
    s[..i] + [s[i].(size := 2 * s[i].size)] + s[i + 2..]
  }

  /** The recursive coalescing: the side is chosen by start ^ size, the partner is the list neighbour. */
  function Merge(s: Layout, i: nat): Layout
    requires i < |s|
    decreases |s|
  {
    if Xor(s[i].start, s[i].size) > s[i].start then
      if i + 1 < |s| && s[i + 1].size == s[i].size && s[i + 1].Free() then
        Merge(MergeRight(s, i), i)
      else s
    else
      if i > 0 && s[i - 1].size == s[i].size && s[i - 1].Free() then
        Merge(MergeRight(s, i - 1), i - 1)
      else s
  }

  function Release(s: Layout, i: nat): Layout
    requires i < |s|
  {
    Merge(s[i := s[i].(requested := 0)], i)
  }

  // ---------- splitting keeps the invariant ----------

  /** No two free buddies coexist, except perhaps next to chunk i. */
  ghost predicate CoalescedExcept(s: Layout, i: nat) {
    forall x, y :: 0 <= x < y < |s| && y == x + 1 && x != i && y != i ==> !FreeBuddies(s[x], s[y])
  }

  lemma HalvesAligned(c: Chunk)
    requires Aligned(c) && c.size > 1
    ensures c.size == 2 * (c.size / 2) && IsPow2(c.size / 2)
    ensures c.start % (c.size / 2) == 0 && (c.start + c.size / 2) % (c.size / 2) == 0
    ensures (c.start + c.size / 2) % c.size == c.size / 2
  {
    var h := c.size / 2;
    Halving(c.size);
    MultipleMod(2, h);
    DividesTransitive(c.start, c.size, h);
    MultipleMod(1, h);
    DividesSum(c.start, h, h);
    OddMultiple(c.start, h);
  }

  lemma SplitTiles(a: nat, size: nat, s: Layout, i: nat)
    requires Tiles(a, size, s) && i < |s| && s[i].size > 1
    ensures Tiles(a, size, Split(s, i))
  {
    HalvesAligned(s[i]);
    var t := Split(s, i);
    assert forall x :: i + 2 <= x < |t| ==> t[x] == s[x - 1];
    assert t[|t| - 1].End() == a + size by {
      if i < |s| - 1 {
        assert t[|t| - 1] == s[|s| - 1];
      }
    }
    forall x, y | 0 <= x < y < |t| && y == x + 1
      ensures t[x].End() == t[y].start
    {
      if y < i {
        assert s[x].End() == s[y].start;
      } else if y == i {
        assert s[x].End() == s[i].start;
      } else if x == i + 1 {
        assert s[i].End() == s[i + 1].start;
      } else if x > i + 1 {
        assert s[x - 1].End() == s[y - 1].start;
      }
    }
  }

  lemma SplitCoalesced(s: Layout, i: nat)
    requires AllAligned(s) && i < |s| && s[i].size > 1 && CoalescedExcept(s, i)
    ensures CoalescedExcept(Split(s, i), i)
  {
    HalvesAligned(s[i]);
    var t := Split(s, i);
    forall x, y | 0 <= x < y < |t| && y == x + 1 && x != i && y != i
      ensures !FreeBuddies(t[x], t[y])
    {
      if y < i {
        assert t[x] == s[x] && t[y] == s[y];
      } else if x == i + 1 {
        assert t[x].start % s[i].size == s[i].size / 2;
      } else {
        assert t[x] == s[x - 1] && t[y] == s[y - 1];
      }
    }
  }

  lemma SplitLive(s: Layout, i: nat)
    requires i < |s| && s[i].Free()
    ensures Live(Split(s, i)) == Live(s)
  {
    var t := Split(s, i);
    assert s == s[..i] + [s[i]] + s[i + 1..];
    forall c
      ensures c in Live(t) <==> c in Live(s)
    {
      assert c in t <==> c in s[..i] || c == t[i] || c == t[i + 1] || c in s[i + 1..];
      assert c in s <==> c in s[..i] || c == s[i] || c in s[i + 1..];
    }
  }

  lemma {:induction false} SplitToKeeps(a: nat, size: nat, s: Layout, i: nat, order: nat)
    requires Tiles(a, size, s) && i < |s| && s[i].Free() && CoalescedExcept(s, i)
    requires s[i].size >= 1 && order <= FloorLog2(s[i].size)
    ensures var t := SplitTo(s, i, order);
            && Tiles(a, size, t) && CoalescedExcept(t, i) && Live(t) == Live(s)
            && t[i] == Chunk(s[i].start, Pow2(order), 0)
            && t[..i] == s[..i]
    decreases s[i].size
  {
    if FloorLog2(s[i].size) != order {
      SplitTiles(a, size, s, i);
      SplitCoalesced(s, i);
      SplitLive(s, i);
      HalvesAligned(s[i]);
      var t := Split(s, i);
      assert t[i] == Chunk(s[i].start, s[i].size / 2, 0);
      assert t[..i] == s[..i];
      SplitToKeeps(a, size, t, i, order);
    } else {
      assert Aligned(s[i]);
    }
  }

  lemma MarkTiles(a: nat, size: nat, s: Layout, i: nat, r: nat)
    requires Tiles(a, size, s) && i < |s|
    ensures Tiles(a, size, s[i := s[i].(requested := r)])
  {
    var t := s[i := s[i].(requested := r)];
    forall x, y | 0 <= x < y < |t| && y == x + 1
      ensures t[x].End() == t[y].start
    {
      assert s[x].End() == s[y].start;
    }
    forall x | 0 <= x < |t|
      ensures Aligned(t[x])
    {
      assert Aligned(s[x]);
    }
  }

  lemma MarkLive(s: Layout, i: nat, r: nat)
    requires Contiguous(s) && AllAligned(s) && i < |s|
    ensures var t := s[i := s[i].(requested := r)];
            Live(t) == (Live(s) - {s[i]}) + (if r == 0 then {} else {t[i]})
  {
    var t := s[i := s[i].(requested := r)];
    forall c
      ensures c in Live(t) <==> c in (Live(s) - {s[i]}) + (if r == 0 then {} else {t[i]})
    {
      if c in Live(t) {
        var x :| 0 <= x < |t| && t[x] == c;
        if x != i {
          assert s[x] in s;
          if s[x] == s[i] {
            DistinctStarts(s, x, i);
          }
        }
      }
      if c in Live(s) && c != s[i] {
        var x :| 0 <= x < |s| && s[x] == c;
        assert t[x] in t;
      }
      assert t[i] in t;
    }
  }

  /** What a successful allocation does: one more live chunk, of the least sufficient power of two. */
  lemma AllocateKeeps(k: nat, s: Layout, n: nat)
    requires Valid(k, s) && n >= 1 && Allocate(s, n).Some?
    ensures var (t, i) := Allocate(s, n).value;
            && Valid(k, t) && i < |t| && i < |s|
            && t[i] == Chunk(s[i].start, Pow2(CeilLog2(n)), n)
            && t[i] !in Live(s) && Live(t) == Live(s) + {t[i]}
            && t[..i] == s[..i]
  {
    var i := BestFit(s, n).value;
    var order := CeilLog2(n);
    EnoughRoom(s[i], n);
    var t := SplitTo(s, i, order);
    SplitToKeeps(0, Pow2(k), s, i, order);
    MarkTiles(0, Pow2(k), t, i, n);
    MarkLive(t, i, n);
    var u := t[i := t[i].(requested := n)];
    assert u[..i] == s[..i];
    forall x, y | 0 <= x < y < |u| && y == x + 1
      ensures !FreeBuddies(u[x], u[y])
    {
      if x != i && y != i {
        assert !FreeBuddies(t[x], t[y]);
      }
    }
    NotYetLive(s, i, u[i]);
  }

  lemma AllocateKeepsValid(k: nat, s: Layout, n: nat)
    requires BuddyLayout.Valid(k, s) && n >= 1 && Allocate(s, n).Some?
    ensures BuddyLayout.Valid(k, Allocate(s, n).value.0)
  {
    AllocateKeeps(k, s, n);
  }

  lemma NotYetLive(s: Layout, i: nat, c: Chunk)
    requires Contiguous(s) && AllAligned(s) && i < |s| && s[i].Free()
    requires c.start == s[i].start
    ensures c !in Live(s)
  {
    if c in Live(s) {
      var x :| 0 <= x < |s| && s[x] == c;
      DistinctStarts(s, x, i);
    }
  }

  /** No more than half of the granted chunk is wasted. */
  lemma GrantIsTight(n: nat)
    requires n >= 1
    ensures n <= Pow2(CeilLog2(n)) < 2 * n
  {
  }

  // ---------- coalescing keeps the invariant ----------

  lemma MergeRightTiles(a: nat, size: nat, s: Layout, i: nat)
    requires Tiles(a, size, s) && i + 1 < |s| && s[i].size == s[i + 1].size
    requires s[i].start % (2 * s[i].size) == 0
    ensures Tiles(a, size, MergeRight(s, i))
  {
    var t := MergeRight(s, i);
    Doubling(s[i].size);
    assert s[i].End() == s[i + 1].start;
    assert forall x :: i < x < |t| ==> t[x] == s[x + 1];
    assert t[|t| - 1].End() == a + size by {
      if i + 1 < |s| - 1 {
        assert t[|t| - 1] == s[|s| - 1];
      }
    }
    forall x, y | 0 <= x < y < |t| && y == x + 1
      ensures t[x].End() == t[y].start
    {
      if y <= i {
        assert s[x].End() == s[y].start;
      } else {
        assert s[x + 1].End() == s[y + 1].start;
      }
    }
  }

  lemma MergeRightCoalesced(s: Layout, i: nat, j: nat)
    requires i + 1 < |s| && (j == i || j == i + 1) && CoalescedExcept(s, j)
    ensures CoalescedExcept(MergeRight(s, i), i)
  {
    var t := MergeRight(s, i);
    forall x, y | 0 <= x < y < |t| && y == x + 1 && x != i && y != i
      ensures !FreeBuddies(t[x], t[y])
    {
      if y < i {
        assert t[x] == s[x] && t[y] == s[y];
      } else {
        assert t[x] == s[x + 1] && t[y] == s[y + 1];
      }
    }
  }

  lemma MergeRightLive(s: Layout, i: nat)
    requires i + 1 < |s| && s[i].Free() && s[i + 1].Free()
    ensures Live(MergeRight(s, i)) == Live(s)
  {
    var t := MergeRight(s, i);
    assert s == s[..i] + [s[i], s[i + 1]] + s[i + 2..];
    forall c
      ensures c in Live(t) <==> c in Live(s)
    {
      assert c in t <==> c in s[..i] || c == t[i] || c in s[i + 2..];
      assert c in s <==> c in s[..i] || c == s[i] || c == s[i + 1] || c in s[i + 2..];
    }
  }

  /**
    The neighbour on the side chosen by start ^ size, if it has the same size, is the buddy; and a
    chunk of the same size that starts at start ^ size is that neighbour.
   */
  lemma NeighbourIsBuddy(a: nat, size: nat, s: Layout, i: nat)
    requires Tiles(a, size, s) && i < |s|
    ensures var b := Xor(s[i].start, s[i].size);
            && (b > s[i].start <==> s[i].start % (2 * s[i].size) == 0)
            && (b > s[i].start && i + 1 < |s| ==> s[i + 1].start == b)
            && (b <= s[i].start && i > 0 && s[i - 1].size == s[i].size ==>
                  s[i - 1].start == b && b % (2 * s[i].size) == 0)
            && (forall j :: 0 <= j < |s| && s[j].start == b && s[j].size == s[i].size ==>
                  j == if b > s[i].start then i + 1 else i - 1)
  {
    assert Aligned(s[i]);
    XorIsBuddy(s[i].start, s[i].size);
    OddMultiple(s[i].start, s[i].size);
    if i + 1 < |s| {
      assert s[i].End() == s[i + 1].start;
    }
    if i > 0 {
      assert s[i - 1].End() == s[i].start;
    }
    var b := Xor(s[i].start, s[i].size);
    forall j | 0 <= j < |s| && s[j].start == b && s[j].size == s[i].size
      ensures j == if b > s[i].start then i + 1 else i - 1
    {
      if b > s[i].start {
        if i + 1 < |s| {
          DistinctStarts(s, i + 1, j);
        } else {
          if j < i { Ordered(s, j, i); }
        }
      } else {
        BuddyOnLeft(s, i, j);
      }
    }
  }

  lemma BuddyOnLeft(s: Layout, i: nat, j: nat)
    requires Contiguous(s) && AllAligned(s) && i < |s| && j < |s|
    requires s[j].size == s[i].size && s[j].End() == s[i].start
    ensures j + 1 == i
  {
    assert Aligned(s[i]) && Aligned(s[j]);
    if j + 1 < |s| {
      assert s[j].End() == s[j + 1].start;
      DistinctStarts(s, j + 1, i);
    } else if i < j {
      Ordered(s, i, j);
    }
  }

  /** Where merging stops, the chunk has no free buddy left. */
  lemma StopCoalesced(a: nat, size: nat, s: Layout, i: nat)
    requires Tiles(a, size, s) && i < |s| && CoalescedExcept(s, i)
    requires var b := Xor(s[i].start, s[i].size);
             if b > s[i].start then !(i + 1 < |s| && s[i + 1].size == s[i].size && s[i + 1].Free())
             else !(i > 0 && s[i - 1].size == s[i].size && s[i - 1].Free())
    ensures Coalesced(s)
  {
    NeighbourIsBuddy(a, size, s, i);
    if i > 0 && s[i - 1].size == s[i].size {
      assert s[i - 1].End() == s[i].start;
      assert Aligned(s[i - 1]);
      OddMultiple(s[i - 1].start, s[i].size);
    }
    forall x, y | 0 <= x < y < |s| && y == x + 1
      ensures !FreeBuddies(s[x], s[y])
    {
      if x != i && y != i {
        assert !FreeBuddies(s[x], s[y]);
      }
    }
  }

  lemma {:induction false} MergeKeeps(k: nat, s: Layout, i: nat)
    requires Tiles(0, Pow2(k), s) && i < |s| && s[i].Free() && CoalescedExcept(s, i)
    ensures Valid(k, Merge(s, i)) && Live(Merge(s, i)) == Live(s)
    decreases |s|
  {
    NeighbourIsBuddy(0, Pow2(k), s, i);
    if Xor(s[i].start, s[i].size) > s[i].start {
      if i + 1 < |s| && s[i + 1].size == s[i].size && s[i + 1].Free() {
        MergeRightTiles(0, Pow2(k), s, i);
        MergeRightCoalesced(s, i, i);
        MergeRightLive(s, i);
        MergeKeeps(k, MergeRight(s, i), i);
      } else {
        StopCoalesced(0, Pow2(k), s, i);
      }
    } else {
      if i > 0 && s[i - 1].size == s[i].size && s[i - 1].Free() {
        MergeRightTiles(0, Pow2(k), s, i - 1);
        MergeRightCoalesced(s, i - 1, i);
        MergeRightLive(s, i - 1);
        MergeKeeps(k, MergeRight(s, i - 1), i - 1);
      } else {
        StopCoalesced(0, Pow2(k), s, i);
      }
    }
  }

  lemma ReleaseKeeps(k: nat, s: Layout, i: nat)
    requires Valid(k, s) && i < |s| && !s[i].Free()
    ensures Valid(k, Release(s, i)) && Live(Release(s, i)) == Live(s) - {s[i]}
  {
    MarkTiles(0, Pow2(k), s, i, 0);
    MarkLive(s, i, 0);
    var t := s[i := s[i].(requested := 0)];
    forall x, y | 0 <= x < y < |t| && y == x + 1 && x != i && y != i
      ensures !FreeBuddies(t[x], t[y])
    {
      assert !FreeBuddies(s[x], s[y]);
    }
    MergeKeeps(k, t, i);
  }

  /** Releasing a chunk that is free already changes nothing: it has nothing to merge with. */
  lemma ReleaseFree(k: nat, s: Layout, i: nat)
    requires Valid(k, s) && i < |s| && s[i].Free()
    ensures Release(s, i) == s
  {
    assert s[i := s[i].(requested := 0)] == s;
    NeighbourIsBuddy(0, Pow2(k), s, i);
    assert Aligned(s[i]);
    if i + 1 < |s| {
      assert !FreeBuddies(s[i], s[i + 1]);
    }
    if i > 0 {
      assert !FreeBuddies(s[i - 1], s[i]);
    }
  }

  /** Freeing undoes allocating: the very same block list comes back. */
  lemma ReleaseUndoesAllocate(k: nat, s: Layout, n: nat)
    requires Valid(k, s) && n >= 1 && Allocate(s, n).Some?
    ensures var (t, i) := Allocate(s, n).value;
            i < |t| && Release(t, i) == s
  {
    AllocateKeeps(k, s, n);
    var (t, i) := Allocate(s, n).value;
    ReleaseKeeps(k, t, i);
    LayoutDeterminedByLive(k, s);
    LayoutDeterminedByLive(k, Release(t, i));
    assert Live(Release(t, i)) == Live(s);
  }

  // ---------- histories ----------

  /** One call: a request, or the release of the live block that starts at the given place. */
  datatype Op = Request(n: nat) | Free(start: nat)

  ghost predicate LegalOp(op: Op) {
    op.Request? ==> op.n >= 1
  }

  function Find(s: Layout, start: nat): (r: Option<nat>)
    ensures r.Some? ==> r.value < |s| && s[r.value].start == start && !s[r.value].Free()
    ensures r.None? ==> forall i :: 0 <= i < |s| && s[i].start == start ==> s[i].Free()
  {
    if s == [] then None
    else if s[0].start == start && !s[0].Free() then Some(0)
    else
      match Find(s[1..], start)
      case Some(i) => Some(i + 1)
      case None =>
        assert forall i :: 1 <= i < |s| ==> s[i] == s[1..][i - 1];
        None
  }

  ghost function Apply(s: Layout, op: Op): Layout
    requires AllAligned(s) && LegalOp(op)
  {
    match op
    case Request(n) => (match Allocate(s, n) case Some((t, _)) => t case None => s)
    case Free(start) => (match Find(s, start) case Some(i) => Release(s, i) case None => s)
  }

  lemma ApplyKeeps(k: nat, s: Layout, op: Op)
    requires Valid(k, s) && LegalOp(op)
    ensures Valid(k, Apply(s, op))
  {
    match op
    case Request(n) =>
      if Allocate(s, n).Some? {
        AllocateKeeps(k, s, n);
      }
    case Free(start) =>
      match Find(s, start)
      case Some(i) => ReleaseKeeps(k, s, i);
      case None =>
  }

  ghost predicate LegalHistory(h: seq<Op>) {
    forall i :: 0 <= i < |h| ==> LegalOp(h[i])
  }

  /** The block list after a history of calls on a memory of 2^k units. */
  ghost function After(k: nat, h: seq<Op>): (s: Layout)
    requires LegalHistory(h)
    ensures Valid(k, s)
  {
    if h == [] then
      InitialValid(k);
      Initial(k)
    else
      var s := After(k, h[..|h| - 1]);
      ApplyKeeps(k, s, h[|h| - 1]);
      Apply(s, h[|h| - 1])
  }

  /** Two histories that leave the same live blocks leave the same block list. */
  lemma HistoryIndependent(k: nat, g: seq<Op>, h: seq<Op>)
    requires LegalHistory(g) && LegalHistory(h)
    requires Live(After(k, g)) == Live(After(k, h))
    ensures After(k, g) == After(k, h)
  {
    LayoutDeterminedByLive(k, After(k, g));
    LayoutDeterminedByLive(k, After(k, h));
  }

  /** Once everything is released, in whatever order, memory is one free block again. */
  lemma AllReleased(k: nat, h: seq<Op>)
    requires LegalHistory(h) && Live(After(k, h)) == {}
    ensures After(k, h) == Initial(k)
  {
    InitialValid(k);
    LayoutDeterminedByLive(k, After(k, h));
    LayoutDeterminedByLive(k, Initial(k));
  }

  /** After any history, a request fails exactly when there is no aligned hole for it. */
  lemma RequestFailsIffNoHole(k: nat, h: seq<Op>, n: nat)
    requires LegalHistory(h) && n >= 1
    ensures Allocate(After(k, h), n).None? <==>
            forall x: nat :: x + Pow2(CeilLog2(n)) <= Pow2(k) ==> !Hole(After(k, h), CeilLog2(n), x)
  {
    ServableIffHole(k, After(k, h), n);
  }

  /** A live block is as large as its request needs and less than twice that, and overlaps no other one. */
  ghost predicate Snug(s: Layout) {
    && (forall c :: c in Live(s) ==> c.size == Pow2(CeilLog2(c.requested)) && c.requested <= c.size < 2 * c.requested)
    && (forall c, d :: c in Live(s) && d in Live(s) && c != d ==> c.End() <= d.start || d.End() <= c.start)
  }

  lemma LiveApart(k: nat, s: Layout, c: Chunk, d: Chunk)
    requires Valid(k, s) && c in Live(s) && d in Live(s) && c != d
    ensures c.End() <= d.start || d.End() <= c.start
  {
    var x :| 0 <= x < |s| && s[x] == c;
    var y :| 0 <= y < |s| && s[y] == d;
    if x < y {
      Ordered(s, x, y);
    } else {
      Ordered(s, y, x);
    }
  }

  lemma ApplySnug(k: nat, s: Layout, op: Op)
    requires Valid(k, s) && LegalOp(op) && forall c :: c in Live(s) ==> c.size == Pow2(CeilLog2(c.requested))
    ensures forall c :: c in Live(Apply(s, op)) ==> c.size == Pow2(CeilLog2(c.requested))
  {
    match op
    case Request(n) =>
      if Allocate(s, n).Some? {
        AllocateKeeps(k, s, n);
      }
    case Free(start) =>
      match Find(s, start)
      case Some(i) => ReleaseKeeps(k, s, i);
      case None =>
  }

  lemma {:induction false} GrantedSizes(k: nat, h: seq<Op>)
    requires LegalHistory(h)
    ensures forall c :: c in Live(After(k, h)) ==> c.size == Pow2(CeilLog2(c.requested))
    decreases |h|
  {
    if h == [] {
      assert Live(Initial(k)) == {};
    } else {
      GrantedSizes(k, h[..|h| - 1]);
      ApplySnug(k, After(k, h[..|h| - 1]), h[|h| - 1]);
    }
  }

  /** After any history every live block fits its request tightly, and no two live blocks overlap. */
  lemma LiveBlocksSnug(k: nat, h: seq<Op>)
    requires LegalHistory(h)
    ensures Snug(After(k, h))
  {
    var s := After(k, h);
    GrantedSizes(k, h);
    forall c | c in Live(s)
      ensures c.requested <= c.size < 2 * c.requested
    {
      GrantIsTight(c.requested);
    }
    forall c, d | c in Live(s) && d in Live(s) && c != d
      ensures c.End() <= d.start || d.End() <= c.start
    {
      LiveApart(k, s, c, d);
    }
  }
}
