/**
  Admission from the waiting list, on values: again and again the earliest waiting process that fits
  is given memory, until none fits.
 */
module AdmissionModel {
  import opened Options
  import opened Dyadic
  import opened BuddyLayout
  import opened BuddyOperations
  import opened Processes

  /** The units of memory a process asks for. */
  function Units(p: Process): nat {
    if p.memorySize < 0 then 0 else p.memorySize
  }

  ghost predicate Asking(w: seq<Process>) {
    forall i :: 0 <= i < |w| ==> w[i].memorySize >= 1
  }

  /** get_oldest_fit: the position of the earliest waiting process that fits. */
  function OldestFit(s: Layout, w: seq<Process>): (r: Option<nat>)
    ensures r.Some? ==> r.value < |w| && CanServe(s, Units(w[r.value]))
    ensures r.Some? ==> forall j :: 0 <= j < r.value ==> !CanServe(s, Units(w[j]))
    ensures r.None? ==> forall j :: 0 <= j < |w| ==> !CanServe(s, Units(w[j]))
  {
    if w == [] then None
    else if BestFit(s, Units(w[0])).Some? then Some(0)
    else
      match OldestFit(s, w[1..])
      case Some(i) => Some(i + 1)
      case None =>
        assert forall j :: 1 <= j < |w| ==> w[j] == w[1..][j - 1];
        None
  }

  lemma OldestFitIs(s: Layout, w: seq<Process>, i: nat)
    requires i < |w| && CanServe(s, Units(w[i])) && forall j :: 0 <= j < i ==> !CanServe(s, Units(w[j]))
    ensures OldestFit(s, w) == Some(i)
  {
  }

  function Without(w: seq<Process>, i: nat): seq<Process>
    requires i < |w|
  {
    w[..i] + w[i + 1..]
  }

  /** What admission leaves: the block list, who still waits, and who was admitted, in order. */
  datatype Admitted = Admitted(layout: Layout, waiting: seq<Process>, admitted: seq<Process>)

  /** The block list after serving a request that can be served. */
  function Granted(k: nat, s: Layout, n: nat): (t: Layout)
    requires Valid(k, s) && n >= 1 && CanServe(s, n)
    ensures Valid(k, t) && Allocate(s, n) == Some((t, BestFit(s, n).value))
  {
    AllocateKeeps(k, s, n);
    Allocate(s, n).value.0
  }

  /** The admission loop of create_processes. */
  function AdmitAll(k: nat, s: Layout, w: seq<Process>): (r: Admitted)
    requires Valid(k, s) && Asking(w)
    ensures Valid(k, r.layout) && Asking(r.waiting)
    decreases |w|
  {
    match OldestFit(s, w)
    case None => Admitted(s, w, [])
    case Some(i) =>
      var r := AdmitAll(k, Granted(k, s, Units(w[i])), Without(w, i));
      r.(admitted := [w[i]] + r.admitted)
  }

  /** The reference: one walk along the waiting list, serving whoever fits at that point. */
  ghost function OneWalk(k: nat, s: Layout, w: seq<Process>): (r: Admitted)
    requires Valid(k, s) && Asking(w)
    ensures Valid(k, r.layout)
    decreases |w|
  {
    if w == [] then Admitted(s, [], [])
    else if CanServe(s, Units(w[0])) then
      var r := OneWalk(k, Granted(k, s, Units(w[0])), w[1..]);
      r.(admitted := [w[0]] + r.admitted)
    else
      var r := OneWalk(k, s, w[1..]);
      r.(waiting := [w[0]] + r.waiting)
  }

  // ---------- serving a request never makes room for another ----------

  lemma HoleStays(s: Layout, t: Layout, j: nat, x: nat)
    requires Live(s) <= Live(t) && Hole(t, j, x)
    ensures Hole(s, j, x)
  {
    forall c | c in s && !c.Free()
      ensures c.End() <= x || x + Pow2(j) <= c.start
    {
      assert c in Live(s);
    }
  }

  lemma NoRoomMade(k: nat, s: Layout, m: nat, n: nat)
    requires Valid(k, s) && m >= 1 && n >= 1 && CanServe(s, m) && !CanServe(s, n)
    ensures !CanServe(Granted(k, s, m), n)
  {
    var t := Granted(k, s, m);
    AllocateKeeps(k, s, m);
    ServableIffHole(k, s, n);
    ServableIffHole(k, t, n);
    forall x: nat | x + Pow2(CeilLog2(n)) <= Pow2(k)
      ensures !Hole(t, CeilLog2(n), x)
    {
      if Hole(t, CeilLog2(n), x) {
        HoleStays(s, t, CeilLog2(n), x);
      }
    }
  }

  // ---------- restarting the scan is the same as one walk ----------

  lemma {:induction false} OldestFitSkips(s: Layout, p: seq<Process>, w: seq<Process>)
    requires forall j :: 0 <= j < |p| ==> !CanServe(s, Units(p[j]))
    ensures OldestFit(s, p + w) == match OldestFit(s, w) case None => None case Some(i) => Some(|p| + i)
    decreases |p|
  {
    if p == [] {
      assert p + w == w;
    } else {
      assert (p + w)[1..] == p[1..] + w;
      OldestFitSkips(s, p[1..], w);
    }
  }

  ghost predicate NoneFits(s: Layout, w: seq<Process>) {
    forall j :: 0 <= j < |w| ==> !CanServe(s, Units(w[j]))
  }

  /** r after x was admitted first. */
  ghost function First(x: Process, r: Admitted): Admitted {
    Admitted(r.layout, r.waiting, [x] + r.admitted)
  }

  /** One round of the admission loop. */
  lemma RoundAt(k: nat, s: Layout, w: seq<Process>, i: nat, t: Layout, v: seq<Process>)
    requires Valid(k, s) && Asking(w) && OldestFit(s, w) == Some(i) && i < |w| && Units(w[i]) >= 1
    requires CanServe(s, Units(w[i])) && t == Granted(k, s, Units(w[i])) && v == Without(w, i)
    ensures Asking(v) && AdmitAll(k, s, w) == First(w[i], AdmitAll(k, t, v))
  {
  }

  lemma AdmitStep(k: nat, s: Layout, w: seq<Process>) returns (i: nat, t: Layout, v: seq<Process>)
    requires Valid(k, s) && Asking(w) && OldestFit(s, w).Some?
    ensures OldestFit(s, w) == Some(i) && i < |w| && CanServe(s, Units(w[i])) && Units(w[i]) >= 1
    ensures t == Granted(k, s, Units(w[i])) && Valid(k, t) && v == Without(w, i) && Asking(v)
    ensures AdmitAll(k, s, w) == First(w[i], AdmitAll(k, t, v))
  {
    i := OldestFit(s, w).value;
    t := Granted(k, s, Units(w[i]));
    v := Without(w, i);
    RoundAt(k, s, w, i, t, v);
  }

  lemma StillNoneFits(k: nat, s: Layout, m: nat, p: seq<Process>)
    requires Valid(k, s) && m >= 1 && CanServe(s, m) && Asking(p) && NoneFits(s, p)
    ensures NoneFits(Granted(k, s, m), p)
  {
    forall j | 0 <= j < |p|
      ensures !CanServe(Granted(k, s, m), Units(p[j]))
    {
      NoRoomMade(k, s, m, Units(p[j]));
    }
  }

  lemma WithoutSkips(p: seq<Process>, w: seq<Process>, i: nat)
    requires i < |w|
    ensures (p + w)[|p| + i] == w[i] && Without(p + w, |p| + i) == p + Without(w, i)
  {
  }

  /** r with p in front of those who wait. */
  ghost function Behind(p: seq<Process>, r: Admitted): Admitted {
    Admitted(r.layout, p + r.waiting, r.admitted)
  }

  lemma PrefixStep(k: nat, s: Layout, p: seq<Process>, w: seq<Process>) returns (x: Process, t: Layout, v: seq<Process>)
    requires Valid(k, s) && Asking(p) && Asking(w) && Asking(p + w) && NoneFits(s, p) && OldestFit(s, w).Some?
    ensures Valid(k, t) && Asking(v) && Asking(p + v) && NoneFits(t, p) && |v| < |w|
    ensures AdmitAll(k, s, w) == First(x, AdmitAll(k, t, v))
    ensures AdmitAll(k, s, p + w) == First(x, AdmitAll(k, t, p + v))
  {
    hide CanServe, Granted, BuddyLayout.Valid, AdmitAll;
    OldestFitSkips(s, p, w);
    var i;
    i, t, v := AdmitStep(k, s, w);
    x := w[i];
    WithoutSkips(p, w, i);
    RoundAt(k, s, p + w, |p| + i, t, p + v);
    StillNoneFits(k, s, Units(x), p);
  }

  lemma NobodyAdmitted(k: nat, s: Layout, p: seq<Process>, w: seq<Process>)
    requires Valid(k, s) && Asking(w) && Asking(p + w) && NoneFits(s, p) && OldestFit(s, w).None?
    ensures AdmitAll(k, s, p + w) == Behind(p, AdmitAll(k, s, w))
  {
    OldestFitSkips(s, p, w);
  }

  /** Processes at the head of the list that do not fit just stay there. */
  lemma {:induction false} PrefixStays(k: nat, s: Layout, p: seq<Process>, w: seq<Process>)
    requires Valid(k, s) && Asking(p) && Asking(w) && Asking(p + w) && NoneFits(s, p)
    ensures AdmitAll(k, s, p + w) == Behind(p, AdmitAll(k, s, w))
    decreases |w|
  {
    if OldestFit(s, w).Some? {
      var x, t, v := PrefixStep(k, s, p, w);
      PrefixStays(k, t, p, v);
    } else {
      NobodyAdmitted(k, s, p, w);
    }
  }

  /** The loop that restarts its scan after each admission does what one walk along the list does. */
  lemma {:induction false} AdmissionIsOneWalk(k: nat, s: Layout, w: seq<Process>)
    requires Valid(k, s) && Asking(w)
    ensures AdmitAll(k, s, w) == OneWalk(k, s, w)
    decreases |w|
  {
    if w == [] {
    } else {
      if CanServe(s, Units(w[0])) {
        assert Without(w, 0) == w[1..];
        AdmissionIsOneWalk(k, Granted(k, s, Units(w[0])), w[1..]);
      } else {
        assert w == [w[0]] + w[1..];
        PrefixStays(k, s, [w[0]], w[1..]);
        AdmissionIsOneWalk(k, s, w[1..]);
      }
    }
  }

  // ---------- admission is exhaustive and free of deadlock ----------

  /** Afterwards nobody who waits fits. */
  lemma {:induction false} NobodyFits(k: nat, s: Layout, w: seq<Process>)
    requires Valid(k, s) && Asking(w)
    ensures NoneFits(AdmitAll(k, s, w).layout, AdmitAll(k, s, w).waiting)
    decreases |w|
  {
    if OldestFit(s, w).None? {
    } else {
      var i, t, v := AdmitStep(k, s, w);
      NobodyFits(k, t, v);
    }
  }

  lemma EmptyMemoryServes(k: nat, s: Layout, n: nat)
    requires Valid(k, s) && Live(s) == {} && 1 <= n <= Pow2(k)
    ensures CanServe(s, n)
  {
    InitialValid(k);
    LayoutDeterminedByLive(k, s);
    LayoutDeterminedByLive(k, Initial(k));
    assert Fits(s[0], n);
  }

  /** If every request fits into memory as such, waiting processes never face a memory that nobody holds. */
  lemma NoDeadlock(k: nat, s: Layout, w: seq<Process>)
    requires Valid(k, s) && Asking(w) && forall x :: x in w ==> Units(x) <= Pow2(k)
    ensures AdmitAll(k, s, w).waiting == [] || Live(AdmitAll(k, s, w).layout) != {}
  {
    NobodyFits(k, s, w);
    WaitersKept(k, s, w);
    StuckMeansHeld(k, AdmitAll(k, s, w), w);
  }

  lemma StuckMeansHeld(k: nat, r: Admitted, w: seq<Process>)
    requires Valid(k, r.layout) && Asking(r.waiting) && NoneFits(r.layout, r.waiting)
    requires multiset(w) == multiset(r.waiting) + multiset(r.admitted) && forall x :: x in w ==> Units(x) <= Pow2(k)
    ensures r.waiting == [] || Live(r.layout) != {}
  {
    if r.waiting != [] && Live(r.layout) == {} {
      var x := r.waiting[0];
      assert x in multiset(w);
      EmptyMemoryServes(k, r.layout, Units(x));
    }
  }

  lemma WithoutMultiset(w: seq<Process>, i: nat)
    requires i < |w|
    ensures multiset(w) == multiset(Without(w, i)) + multiset{w[i]}
  {
    assert w == w[..i] + [w[i]] + w[i + 1..];
  }

  /** Everybody on the list is either admitted or still waiting. */
  lemma {:induction false} WaitersKept(k: nat, s: Layout, w: seq<Process>)
    requires Valid(k, s) && Asking(w)
    ensures multiset(w) == multiset(AdmitAll(k, s, w).waiting) + multiset(AdmitAll(k, s, w).admitted)
    decreases |w|
  {
    if OldestFit(s, w).None? {
    } else {
      var i, t, v := AdmitStep(k, s, w);
      WithoutMultiset(w, i);
      WaitersKept(k, t, v);
    }
  }

  /** Each admitted process holds one more live chunk. */
  lemma {:induction false} AdmittedHoldMemory(k: nat, s: Layout, w: seq<Process>)
    requires Valid(k, s) && Asking(w)
    ensures Live(s) <= Live(AdmitAll(k, s, w).layout)
    ensures |Live(AdmitAll(k, s, w).layout)| == |Live(s)| + |AdmitAll(k, s, w).admitted|
    decreases |w|
  {
    if OldestFit(s, w).None? {
    } else {
      var i, t, v := AdmitStep(k, s, w);
      AllocateKeeps(k, s, Units(w[i]));
      AdmittedHoldMemory(k, t, v);
    }
  }
}
