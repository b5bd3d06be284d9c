/**
  The block list of the buddy allocator as a value: the chunks from left to right.
  The operations are the list operations of buddy_memory.c; the class in BuddyMemory.dfy is proved
  to perform exactly these on its linked blocks.
 */
module BuddyLayout {
  import opened Dyadic

  /** One block: requested is 0 for a free block, otherwise the number of units that were asked for. */
  datatype Chunk = Chunk(start: nat, size: nat, requested: nat) {
    function End(): nat {
      start + size
    }

    predicate Free() {
      requested == 0
    }
  }

  type Layout = seq<Chunk>

  // ---------- the buddy invariant ----------

  ghost predicate Aligned(c: Chunk) {
    IsPow2(c.size) && c.start % c.size == 0
  }

  ghost predicate AllAligned(s: Layout) {
    forall i :: 0 <= i < |s| ==> Aligned(s[i])
  }

  ghost predicate Contiguous(s: Layout) {
    forall i, j :: 0 <= i < j < |s| && j == i + 1 ==> s[i].End() == s[j].start
  }

  /** s tiles [a, a + size) from left to right with aligned power-of-two chunks. */
  ghost predicate Tiles(a: nat, size: nat, s: Layout) {
    && |s| >= 1
    && s[0].start == a
    && s[|s| - 1].End() == a + size
    && Contiguous(s)
    && AllAligned(s)
  }

  /** Two free chunks side by side that together are an aligned chunk of twice the size. */
  predicate FreeBuddies(c: Chunk, d: Chunk)
  {
    c.Free() && d.Free() && c.size == d.size && c.size > 0 && c.start % (2 * c.size) == 0
  }

  ghost predicate Coalesced(s: Layout) {
    forall i, j :: 0 <= i < j < |s| && j == i + 1 ==> !FreeBuddies(s[i], s[j])
  }

  ghost predicate Valid(k: nat, s: Layout) {
    Tiles(0, Pow2(k), s) && Coalesced(s)
  }

  /** The allocated chunks. */
  ghost function Live(s: Layout): set<Chunk> {
    set c | c in s && !c.Free()
  }

  function Initial(k: nat): Layout {
    [Chunk(0, Pow2(k), 0)]
  }

  lemma InitialValid(k: nat)
    ensures Valid(k, Initial(k)) && Live(Initial(k)) == {}
  {
    FloorLog2Pow2(k);
  }

  // ---------- order within a tiling ----------

  lemma {:induction false} Ordered(s: Layout, i: nat, j: nat)
    requires Contiguous(s) && i < j < |s|
    ensures s[i].End() <= s[j].start
    decreases j
  {
    if i + 1 >= j {
    } else {
      Ordered(s, i, j - 1);
      assert s[j - 1].End() == s[j].start;
    }
  }

  lemma Bounds(a: nat, size: nat, s: Layout, i: nat)
    requires Tiles(a, size, s) && i < |s|
    ensures a <= s[i].start && s[i].End() <= a + size
    ensures s[i].size >= 1
  {
    if 0 < i {
      Ordered(s, 0, i);
    }
    if i < |s| - 1 {
      Ordered(s, i, |s| - 1);
    }
  }

  lemma AtMost(a: nat, k: nat, s: Layout, i: nat)
    requires Tiles(a, Pow2(k), s) && i < |s|
    ensures s[i].size <= Pow2(k)
    ensures |s| > 1 ==> k > 0 && s[i].size <= Pow2(k - 1)
  {
    Bounds(a, Pow2(k), s, i);
    if |s| > 1 {
      var j := if i == 0 then 1 else 0;
      Bounds(a, Pow2(k), s, j);
      if i < j {
        Ordered(s, i, j);
      } else {
        Ordered(s, j, i);
      }
      FloorLog2Pow2(k);
      PowersDivide(s[i].size, Pow2(k));
    }
  }

  lemma DistinctStarts(s: Layout, i: nat, j: nat)
    requires Contiguous(s) && AllAligned(s)
    requires i < |s| && j < |s| && s[i].start == s[j].start
    ensures i == j
  {
    assert Aligned(s[i]) && Aligned(s[j]);
    if i < j {
      Ordered(s, i, j);
    } else if j < i {
      Ordered(s, j, i);
    }
  }

  // ---------- the middle of a tiling ----------

  /** An aligned chunk that is smaller than the region does not cross the region's middle. */
  lemma NoCrossing(a: nat, k: nat, start: nat, size: nat)
    requires a % Pow2(k) == 0 && k > 0
    requires IsPow2(size) && start % size == 0 && size <= Pow2(k - 1)
    ensures start + size <= a + Pow2(k - 1) || a + Pow2(k - 1) <= start
  {
    FloorLog2Pow2(k - 1);
    FloorLog2Pow2(k);
    PowersDivide(size, Pow2(k - 1));
    PowersDivide(size, Pow2(k));
    DividesTransitive(a, Pow2(k), size);
    DividesSum(a, Pow2(k - 1), size);
    if start < a + Pow2(k - 1) {
      MultiplesApart(start, a + Pow2(k - 1), size);
    }
  }

  /** Where a tiling of several chunks breaks into tilings of the two halves. */
  ghost function Middle(m: nat, s: Layout): (j: nat)
    ensures j <= |s|
    ensures forall i :: 0 <= i < j ==> s[i].start < m
    ensures j < |s| ==> s[j].start >= m
  {
    if s == [] || s[0].start >= m then 0 else 1 + Middle(m, s[1..])
  }

  lemma Halves(a: nat, k: nat, s: Layout) returns (l: Layout, r: Layout)
    requires a % Pow2(k) == 0 && Tiles(a, Pow2(k), s) && |s| > 1
    ensures k > 0 && s == l + r
    ensures a % Pow2(k - 1) == 0 && (a + Pow2(k - 1)) % Pow2(k - 1) == 0
    ensures Tiles(a, Pow2(k - 1), l) && Tiles(a + Pow2(k - 1), Pow2(k - 1), r)
  {
    AtMost(a, k, s, 0);
    var m := a + Pow2(k - 1);
    var j := Middle(m, s);
    Bounds(a, Pow2(k), s, |s| - 1);
    AtMost(a, k, s, |s| - 1);
    NoCrossing(a, k, s[|s| - 1].start, s[|s| - 1].size);
    assert 0 < j < |s|;
    AtMost(a, k, s, j - 1);
    NoCrossing(a, k, s[j - 1].start, s[j - 1].size);
    assert s[j - 1].End() == s[j].start;
    l, r := s[..j], s[j..];
    assert l[|l| - 1] == s[j - 1];
    Pow2Divides(k - 1, k);
    DividesTransitive(a, Pow2(k), Pow2(k - 1));
    MultipleMod(1, Pow2(k - 1));
    DividesSum(a, Pow2(k - 1), Pow2(k - 1));
  }

  lemma CoalescedParts(l: Layout, r: Layout)
    requires Coalesced(l + r)
    ensures Coalesced(l) && Coalesced(r)
  {
    var s := l + r;
    forall i, j | 0 <= i < j < |l| && j == i + 1
      ensures !FreeBuddies(l[i], l[j])
    {
      assert !FreeBuddies(s[i], s[j]);
    }
    forall i, j | 0 <= i < j < |r| && j == i + 1
      ensures !FreeBuddies(r[i], r[j])
    {
      assert !FreeBuddies(s[|l| + i], s[|l| + j]);
    }
  }

  ghost predicate NothingLive(s: Layout) {
    forall i :: 0 <= i < |s| ==> s[i].Free()
  }

  /** Maximal coalescing: a coalesced region without an allocated chunk is one free chunk. */
  lemma {:induction false} AllFree(a: nat, k: nat, s: Layout)
    requires a % Pow2(k) == 0 && Tiles(a, Pow2(k), s) && Coalesced(s) && NothingLive(s)
    ensures s == [Chunk(a, Pow2(k), 0)]
    decreases k
  {
    if |s| <= 1 {
    } else {
      var l, r := Halves(a, k, s);
      CoalescedParts(l, r);
      NothingLiveParts(l, r);
      assert !FreeBuddies(s[0], s[1]);
      AllFree(a, k - 1, l);
      AllFree(a + Pow2(k - 1), k - 1, r);
    }
  }

  lemma NothingLiveParts(l: Layout, r: Layout)
    requires NothingLive(l + r)
    ensures NothingLive(l) && NothingLive(r)
  {
    forall i | 0 <= i < |l|
      ensures l[i].Free()
    {
      assert (l + r)[i].Free();
    }
    forall i | 0 <= i < |r|
      ensures r[i].Free()
    {
      assert (l + r)[|l| + i].Free();
    }
  }

  // ---------- the layout is determined by the live chunks ----------

  ghost predicate Inside(c: Chunk, a: nat, size: nat) {
    a <= c.start && c.End() <= a + size
  }

  ghost predicate Vacant(live: set<Chunk>, a: nat, size: nat) {
    forall c :: c in live ==> !Inside(c, a, size)
  }

  ghost predicate HasFull(live: set<Chunk>, a: nat, size: nat) {
    exists c :: c in live && c.start == a && c.size == size
  }

  ghost function Full(live: set<Chunk>, a: nat, size: nat): (c: Chunk)
    requires HasFull(live, a, size)
    ensures c in live && c.start == a && c.size == size
  {
    var c :| c in live && c.start == a && c.size == size;
    c
  }

  /**
    The reference layout of the aligned region [a, a + 2^k): an empty region is one free chunk, a
    live chunk that fills the region stands for itself, and any other region is its two halves.
   */
  ghost function Canonical(a: nat, k: nat, live: set<Chunk>): Layout
    decreases k
  {
    if Vacant(live, a, Pow2(k)) then [Chunk(a, Pow2(k), 0)]
    else if HasFull(live, a, Pow2(k)) then [Full(live, a, Pow2(k))]
    else if k == 0 then []
    else Canonical(a, k - 1, live) + Canonical(a + Pow2(k - 1), k - 1, live)
  }

  ghost predicate IsCanonical(a: nat, k: nat, s: Layout, live: set<Chunk>) {
    s == Canonical(a, k, live)
  }

  /** live restricted to the region is exactly the allocated part of s. */
  ghost predicate Describes(live: set<Chunk>, a: nat, size: nat, s: Layout) {
    forall c :: c in live && Inside(c, a, size) <==> c in s && !c.Free()
  }

  ghost predicate Region(a: nat, k: nat, s: Layout, live: set<Chunk>) {
    a % Pow2(k) == 0 && Tiles(a, Pow2(k), s) && Coalesced(s) && Describes(live, a, Pow2(k), s)
  }

  lemma DescribesHalves(a: nat, k: nat, l: Layout, r: Layout, live: set<Chunk>)
    requires k > 0 && Describes(live, a, Pow2(k), l + r)
    requires Tiles(a, Pow2(k - 1), l) && Tiles(a + Pow2(k - 1), Pow2(k - 1), r)
    ensures Describes(live, a, Pow2(k - 1), l)
    ensures Describes(live, a + Pow2(k - 1), Pow2(k - 1), r)
  {
    MembersInside(a, Pow2(k - 1), l);
    MembersInside(a + Pow2(k - 1), Pow2(k - 1), r);
  }

  lemma MembersInside(a: nat, size: nat, s: Layout)
    requires Tiles(a, size, s)
    ensures forall c :: c in s ==> Inside(c, a, size) && c.size >= 1
  {
    forall c | c in s
      ensures Inside(c, a, size) && c.size >= 1
    {
      var i :| 0 <= i < |s| && s[i] == c;
      Bounds(a, size, s, i);
    }
  }

  lemma NormalFormVacant(a: nat, k: nat, s: Layout, live: set<Chunk>)
    requires a % Pow2(k) == 0 && Tiles(a, Pow2(k), s) && Coalesced(s)
    requires Describes(live, a, Pow2(k), s) && Vacant(live, a, Pow2(k))
    ensures IsCanonical(a, k, s, live)
  {
    forall i | 0 <= i < |s|
      ensures s[i].Free()
    {
      assert s[i] in s;
    }
    AllFree(a, k, s);
  }

  lemma NormalFormFull(a: nat, k: nat, s: Layout, live: set<Chunk>)
    requires Tiles(a, Pow2(k), s) && |s| == 1
    requires Describes(live, a, Pow2(k), s) && !Vacant(live, a, Pow2(k))
    ensures IsCanonical(a, k, s, live)
  {
    assert s[0] in s;
    assert s[0] in live && s[0].size == Pow2(k);
    forall c | c in live && c.start == a && c.size == Pow2(k)
      ensures c == s[0]
    {
      assert Inside(c, a, Pow2(k));
    }
  }

  /** Every coalesced tiling is the reference layout of its live chunks. */
  lemma {:induction false} NormalForm(a: nat, k: nat, s: Layout, live: set<Chunk>)
    requires Region(a, k, s, live)
    ensures IsCanonical(a, k, s, live)
    decreases k
  {
    hide Canonical, IsCanonical, Coalesced, Describes, Vacant, HasFull;
    if Vacant(live, a, Pow2(k)) {
      NormalFormVacant(a, k, s, live);
    } else if |s| == 1 {
      NormalFormFull(a, k, s, live);
    } else {
      var l, r := SplitRegion(a, k, s, live);
      NormalForm(a, k - 1, l, live);
      NormalForm(a + Pow2(k - 1), k - 1, r, live);
      CanonicalHalves(a, k, live, s, l, r);
    }
  }

  lemma SplitRegion(a: nat, k: nat, s: Layout, live: set<Chunk>) returns (l: Layout, r: Layout)
    requires Region(a, k, s, live) && |s| > 1
    ensures k > 0 && s == l + r
    ensures Region(a, k - 1, l, live) && Region(a + Pow2(k - 1), k - 1, r, live)
    ensures !HasFull(live, a, Pow2(k))
  {
    NoFullChunk(a, k, s, live);
    l, r := Halves(a, k, s);
    CoalescedParts(l, r);
    DescribesHalves(a, k, l, r, live);
  }

  lemma CanonicalHalves(a: nat, k: nat, live: set<Chunk>, s: Layout, l: Layout, r: Layout)
    requires k > 0 && !Vacant(live, a, Pow2(k))
    requires !HasFull(live, a, Pow2(k))
    requires s == l + r && IsCanonical(a, k - 1, l, live) && IsCanonical(a + Pow2(k - 1), k - 1, r, live)
    ensures IsCanonical(a, k, s, live)
  {
  }

  lemma NoFullChunk(a: nat, k: nat, s: Layout, live: set<Chunk>)
    requires Tiles(a, Pow2(k), s) && |s| > 1 && Describes(live, a, Pow2(k), s)
    ensures !HasFull(live, a, Pow2(k))
  {
    forall c | c in live && c.start == a
      ensures c.size != Pow2(k)
    {
      if Inside(c, a, Pow2(k)) {
        var i :| 0 <= i < |s| && s[i] == c;
        AtMost(a, k, s, i);
      }
    }
  }

  /** History independence: a valid layout is a function of its live chunks. */
  lemma LayoutDeterminedByLive(k: nat, s: Layout)
    requires Valid(k, s)
    ensures s == Canonical(0, k, Live(s))
  {
    MembersInside(0, Pow2(k), s);
    NormalForm(0, k, s, Live(s));
  }

  // ---------- which requests can be served ----------

  predicate Fits(c: Chunk, n: nat) {
    c.Free() && c.size >= n
  }

  ghost predicate CanServe(s: Layout, n: nat) {
    exists i :: 0 <= i < |s| && Fits(s[i], n)
  }

  /** [x, x + 2^j) is an aligned interval of memory that no allocated chunk touches. */
  ghost predicate Hole(s: Layout, j: nat, x: nat) {
    && x % Pow2(j) == 0
    && forall c :: c in s && !c.Free() ==> c.End() <= x || x + Pow2(j) <= c.start
  }

  lemma WholeHole(a: nat, k: nat, s: Layout, j: nat, x: nat)
    requires a % Pow2(k) == 0 && Tiles(a, Pow2(k), s) && Coalesced(s)
    requires Hole(s, j, x) && a <= x && x + Pow2(j) <= a + Pow2(k) && Pow2(j) == Pow2(k)
    ensures s == [Chunk(a, Pow2(k), 0)]
  {
    forall i | 0 <= i < |s|
      ensures s[i].Free()
    {
      assert s[i] in s;
      Bounds(a, Pow2(k), s, i);
    }
    AllFree(a, k, s);
  }

  lemma HoleInOneHalf(a: nat, k: nat, j: nat, x: nat)
    requires a % Pow2(k) == 0 && k > 0 && x % Pow2(j) == 0
    requires a <= x && x + Pow2(j) <= a + Pow2(k) && Pow2(j) != Pow2(k)
    ensures x + Pow2(j) <= a + Pow2(k - 1) || a + Pow2(k - 1) <= x
  {
    FloorLog2Pow2(j);
    FloorLog2Pow2(k);
    PowersDivide(Pow2(j), Pow2(k));
    NoCrossing(a, k, x, Pow2(j));
  }

  lemma {:induction false} HoleHasFreeChunk(a: nat, k: nat, s: Layout, j: nat, x: nat) returns (i: nat)
    requires a % Pow2(k) == 0 && Tiles(a, Pow2(k), s) && Coalesced(s)
    requires Hole(s, j, x) && a <= x && x + Pow2(j) <= a + Pow2(k)
    ensures i < |s| && s[i].Free() && s[i].size >= Pow2(j)
    ensures s[i].start <= x && x + Pow2(j) <= s[i].End()
    decreases k
  {
    if Pow2(j) == Pow2(k) {
      WholeHole(a, k, s, j, x);
      i := 0;
    } else if |s| == 1 {
      i := 0;
      assert s[0] in s;
    } else {
      var l, r := Halves(a, k, s);
      var h := Pow2(k - 1);
      CoalescedParts(l, r);
      HoleInOneHalf(a, k, j, x);
      if x + Pow2(j) <= a + h {
        i := HoleHasFreeChunk(a, k - 1, l, j, x);
      } else {
        i := HoleHasFreeChunk(a + h, k - 1, r, j, x);
        i := i + |l|;
      }
    }
  }

  /** The chunk that serves a request starts with a hole of the required size. */
  lemma ServedByHole(k: nat, s: Layout, n: nat, i: nat)
    requires Valid(k, s) && n >= 1 && i < |s| && Fits(s[i], n)
    ensures s[i].start + Pow2(CeilLog2(n)) <= Pow2(k) && Hole(s, CeilLog2(n), s[i].start)
  {
    var j, x := CeilLog2(n), s[i].start;
    Bounds(0, Pow2(k), s, i);
    CeilLog2Below(n, FloorLog2(s[i].size));
    Pow2Divides(j, FloorLog2(s[i].size));
    DividesTransitive(x, s[i].size, Pow2(j));
    Pow2Monotone(j, FloorLog2(s[i].size));
    forall c | c in s && !c.Free()
      ensures c.End() <= x || x + Pow2(j) <= c.start
    {
      var y :| 0 <= y < |s| && s[y] == c;
      if y < i {
        Ordered(s, y, i);
      } else {
        Ordered(s, i, y);
      }
    }
  }

  /** Where there is such a hole, some chunk serves the request. */
  lemma HoleServes(k: nat, s: Layout, n: nat, x: nat)
    requires Valid(k, s) && n >= 1 && x + Pow2(CeilLog2(n)) <= Pow2(k) && Hole(s, CeilLog2(n), x)
    ensures CanServe(s, n)
  {
    Remainder(0, 0, Pow2(k));
    var i := HoleHasFreeChunk(0, k, s, CeilLog2(n), x);
    assert Fits(s[i], n);
  }

  /**
    Failure is complete: a request for n >= 1 units can be served exactly when some aligned interval
    of 2^ceil(log2 n) units inside memory touches no allocated chunk.
   */
  lemma ServableIffHole(k: nat, s: Layout, n: nat)
    requires Valid(k, s) && n >= 1
    ensures CanServe(s, n) <==> exists x: nat :: x + Pow2(CeilLog2(n)) <= Pow2(k) && Hole(s, CeilLog2(n), x)
  {
    if CanServe(s, n) {
      var i :| 0 <= i < |s| && Fits(s[i], n);
      ServedByHole(k, s, n, i);
    }
    if x: nat :| x + Pow2(CeilLog2(n)) <= Pow2(k) && Hole(s, CeilLog2(n), x) {
      HoleServes(k, s, n, x);
    }
  }
}
