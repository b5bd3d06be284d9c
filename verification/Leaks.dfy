/**
  What leaked blocks do: which requests they block for good, when that is a deadlock, and how little
  it takes for a block to leak.
 */
module Leaks {
  import opened Options
  import opened Dyadic
  import opened BuddyLayout
  import opened Processes
  import opened AdmissionModel
  import opened BlockBooks
  import opened AdmissionRuns
  import opened HashMap

  /** [x, x + 2^j) is an aligned interval that touches none of the blocks. */
  ghost predicate ClearOf(cs: set<Chunk>, j: nat, x: nat) {
    x % Pow2(j) == 0 && forall c :: c in cs ==> c.End() <= x || x + Pow2(j) <= c.start
  }

  /** The blocks alone leave no room for a request of n units, whoever else exits. */
  ghost predicate Blocked(k: nat, cs: set<Chunk>, n: nat)
    requires n >= 1
  {
    forall x: nat :: x + Pow2(CeilLog2(n)) <= Pow2(k) ==> !ClearOf(cs, CeilLog2(n), x)
  }

  lemma ClearIsHole(s: Layout, j: nat, x: nat)
    ensures ClearOf(Live(s), j, x) <==> Hole(s, j, x)
  {
    if Hole(s, j, x) {
      forall c | c in Live(s)
        ensures c.End() <= x || x + Pow2(j) <= c.start
      {
        assert c in s && !c.Free();
      }
    }
    if ClearOf(Live(s), j, x) {
      forall c | c in s && !c.Free()
        ensures c.End() <= x || x + Pow2(j) <= c.start
      {
        assert c in Live(s);
      }
    }
  }

  /** A request can be served exactly when the live blocks do not block it. */
  lemma ServedIffNotBlocked(k: nat, s: Layout, n: nat)
    requires Valid(k, s) && n >= 1
    ensures CanServe(s, n) <==> !Blocked(k, Live(s), n)
  {
    hide BuddyLayout.Valid, ClearOf, Hole;
    if CanServe(s, n) {
      var i :| 0 <= i < |s| && Fits(s[i], n);
      ServedByHole(k, s, n, i);
      ClearIsHole(s, CeilLog2(n), s[i].start);
      assert ClearOf(Live(s), CeilLog2(n), s[i].start);
    }
    if !Blocked(k, Live(s), n) {
      var x: nat :| x + Pow2(CeilLog2(n)) <= Pow2(k) && ClearOf(Live(s), CeilLog2(n), x);
      ClearIsHole(s, CeilLog2(n), x);
      HoleServes(k, s, n, x);
    }
  }

  lemma BlockedByMore(k: nat, cs: set<Chunk>, ds: set<Chunk>, n: nat)
    requires n >= 1 && cs <= ds && Blocked(k, cs, n)
    ensures Blocked(k, ds, n)
  {
    forall x: nat | x + Pow2(CeilLog2(n)) <= Pow2(k)
      ensures !ClearOf(ds, CeilLog2(n), x)
    {
      assert !ClearOf(cs, CeilLog2(n), x);
    }
  }

  // ---------- when a run deadlocks ----------

  lemma WaitersAsk(g: State, p: Process)
    requires Asking(g.waiting) && p in g.waiting
    ensures Units(p) >= 1
  {
  }

  lemma LiveIsLeaked(k: nat, g: State)
    requires Good(k, g) && g.books.owners == map[]
    ensures Live(g.layout) == g.books.leaked
  {
    assert Held(g.books.owners) == {};
  }

  /**
    After an iteration, a process that still waits although no process holds a block is one that the
    leaked blocks alone block. So without leaks no run deadlocks.
   */
  lemma NoRunDeadlocks(k: nat, run: seq<Event>, p: Process)
    requires LegalRun(k, run) && run != [] && run[|run| - 1].Iterate?
    requires p in After(k, run).waiting
    ensures Units(p) >= 1
    ensures var g := After(k, run);
            !Blocked(k, g.books.leaked, Units(p)) ==> g.books.owners != map[] && !CanServe(g.layout, Units(p))
  {
    var g, h := After(k, run[..|run| - 1]), After(k, run);
    var e := run[|run| - 1];
    NobodyFitsAfterIteration(k, g.layout, g.waiting, e.arrival);
    WaitersAsk(h, p);
    var j :| 0 <= j < |h.waiting| && h.waiting[j] == p;
    assert !CanServe(h.layout, Units(p));
    if h.books.owners == map[] {
      LiveIsLeaked(k, h);
      ServedIffNotBlocked(k, h.layout, Units(p));
    }
  }

  /** While no process holds a block, an iteration admits nobody exactly when the leaked blocks block all who wait. */
  lemma AdmitsNobodyIff(k: nat, g: State)
    requires Good(k, g) && g.books.owners == map[]
    ensures Iteration(k, g.layout, g.waiting, None).admitted == [] <==>
            forall p :: p in g.waiting ==> Units(p) >= 1 && Blocked(k, g.books.leaked, Units(p))
  {
    LiveIsLeaked(k, g);
    forall p | p in g.waiting
      ensures Units(p) >= 1 && (CanServe(g.layout, Units(p)) <==> !Blocked(k, g.books.leaked, Units(p)))
    {
      WaitersAsk(g, p);
      ServedIffNotBlocked(k, g.layout, Units(p));
    }
    if OldestFit(g.layout, g.waiting).Some? {
      var i, t, v := AdmitStep(k, g.layout, g.waiting);
      assert g.waiting[i] in g.waiting;
    } else {
      forall p | p in g.waiting
        ensures !CanServe(g.layout, Units(p))
      {
        var j :| 0 <= j < |g.waiting| && g.waiting[j] == p;
      }
    }
  }

  // ---------- blocked once, blocked for good ----------

  /** Nobody whom the blocks in cs block is served as long as they are live. */
  lemma {:induction false} NotAmongServed(k: nat, s: Layout, ps: seq<Process>, cs: set<Chunk>, p: Process)
    requires Valid(k, s) && InTurn(k, s, ps) && cs <= Live(s)
    requires Units(p) >= 1 && Blocked(k, cs, Units(p))
    ensures p !in ps
    decreases |ps|
  {
    if ps == [] {
    } else {
      BlockedByMore(k, cs, Live(s), Units(p));
      ServedIffNotBlocked(k, s, Units(p));
      assert ps[0] != p;
      var c := GrantedChunk(k, s, Units(ps[0]));
      NotAmongServed(k, Granted(k, s, Units(ps[0])), ps[1..], cs, p);
      assert ps == [ps[0]] + ps[1..];
    }
  }

  lemma StillThere(w: seq<Process>, newcomers: seq<Process>, waiting: seq<Process>, admitted: seq<Process>, p: Process)
    requires multiset(w) + multiset(newcomers) == multiset(waiting) + multiset(admitted)
    requires p in w && p !in admitted
    ensures p in waiting
  {
    assert p in multiset(w);
    assert p in multiset(waiting) + multiset(admitted);
    assert p !in multiset(admitted);
  }

  lemma IterateStaysBlocked(k: nat, g: State, arrival: Option<Process>, pids: seq<int>, p: Process)
    requires Good(k, g) && Possible(k, g, Iterate(arrival, pids))
    requires p in g.waiting && Units(p) >= 1 && Blocked(k, g.books.leaked, Units(p))
    ensures var h := Forked(k, g, arrival, pids); p in h.waiting && Blocked(k, h.books.leaked, Units(p))
  {
    hide Iteration, Blocked, Suits;
    var r := Iteration(k, g.layout, g.waiting, arrival);
    IterationInTurn(k, g.layout, g.waiting, arrival);
    IterationKeeps(k, g.layout, g.waiting, arrival);
    NotAmongServed(k, g.layout, r.admitted, g.books.leaked, p);
    StillThere(g.waiting, ArrivalOf(arrival), r.waiting, r.admitted, p);
    LeaksStay(k, g.layout, g.books, r.admitted, pids);
    BlockedByMore(k, g.books.leaked, AssignAll(k, g.layout, g.books, r.admitted, pids).leaked, Units(p));
  }

  lemma ExitLeaksSame(k: nat, g: State, pid: int)
    requires Good(k, g) && Possible(k, g, Exit(pid))
    ensures Exited(k, g, pid).books.leaked == g.books.leaked && Exited(k, g, pid).waiting == g.waiting
  {
    if pid in g.books.owners {
      StrikeOwn(g.layout, g.books, pid);
    }
  }

  /** Whom the leaked blocks block waits forever, whatever happens. */
  lemma {:induction false} BlockedForever(k: nat, run: seq<Event>, more: seq<Event>, p: Process)
    requires LegalRun(k, run) && LegalRun(k, run + more)
    requires p in After(k, run).waiting && Units(p) >= 1 && Blocked(k, After(k, run).books.leaked, Units(p))
    ensures p in After(k, run + more).waiting && Blocked(k, After(k, run + more).books.leaked, Units(p))
    decreases |more|
  {
    hide Blocked, Kept, BuddyLayout.Valid, Iteration, Possible;
    if more == [] {
      assert run + more == run;
    } else {
      var n := |more| - 1;
      assert (run + more)[..|run + more| - 1] == run + more[..n];
      assert (run + more)[|run + more| - 1] == more[n];
      BlockedForever(k, run, more[..n], p);
      var g := After(k, run + more[..n]);
      match more[n]
      case Iterate(arrival, pids) => IterateStaysBlocked(k, g, arrival, pids, p);
      case Exit(pid) => ExitLeaksSame(k, g, pid);
    }
  }

  // ---------- how little it takes ----------

  /** Memory is whole, nobody waits or runs, nothing has leaked, and the map has the given keys. */
  ghost predicate Blank(k: nat, g: State, keys: Keys) {
    && g.layout == Initial(k) && g.waiting == [] && g.running == map[]
    && g.books == Books(keys, map[], {}) && |keys| > 0
  }

  lemma InitialServes(k: nat, n: nat)
    requires 1 <= n <= Pow2(k)
    ensures Valid(k, Initial(k)) && CanServe(Initial(k), n) && Live(Initial(k)) == {}
  {
    InitialValid(k);
    assert Live(Initial(k)) == {};
    EmptyMemoryServes(k, Initial(k), n);
  }

  /** The whole of memory is free: a newcomer is forked at once. */
  lemma BlankArrival(k: nat, g: State, keys: Keys, p: Process, pid: int)
    requires Good(k, g) && Blank(k, g, keys) && 1 <= p.memorySize <= Pow2(k)
    ensures CanServe(g.layout, Units(p)) && Possible(k, g, Iterate(Some(p), [pid]))
    ensures var h := Forked(k, g, Some(p), [pid]);
            && h.waiting == [] && h.running == map[pid := p]
            && h.layout == Granted(k, g.layout, Units(p))
            && h.books == Assign(g.books, pid, GrantedChunk(k, g.layout, Units(p)))
  {
    InitialServes(k, Units(p));
    assert AdmitAll(k, g.layout, []) == Admitted(g.layout, [], []);
    var r := Iteration(k, g.layout, [], Some(p));
    assert r.admitted == [p];
    IterationInTurn(k, g.layout, [], Some(p));
    AssignOne(k, g.layout, g.books, p, pid);
  }

  lemma AssignOne(k: nat, s: Layout, b: Books, p: Process, pid: int)
    requires Valid(k, s) && p.memorySize >= 1 && CanServe(s, Units(p)) && |b.keys| > 0
    ensures InTurn(k, s, [p]) && AssignAll(k, s, b, [p], [pid]) == Assign(b, pid, GrantedChunk(k, s, Units(p)))
    ensures StartAll(map[], [p], [pid]) == map[pid := p]
  {
    assert [p][1..] == [] && [pid][1..] == [];
  }

  /** When the only process that runs owns the only live block, its exit leaves but its key. */
  lemma LastOwnerGoes(k: nat, h: State, pid: int)
    requires Good(k, h) && h.waiting == [] && h.running.Keys == {pid} == h.books.owners.Keys && h.books.leaked == {}
    ensures Possible(k, h, Exit(pid)) && Blank(k, Exited(k, h, pid), h.books.keys)
  {
    var e := Exited(k, h, pid);
    StrikeOwn(h.layout, h.books, pid);
    assert e.running.Keys == {} && e.books.owners.Keys == {};
    LiveIsLeaked(k, e);
    InitialLayout(k, e.layout);
  }

  /** If the map takes the pid, its process comes and goes without a trace but for the key. */
  lemma ComeAndGo(k: nat, g: State, keys: Keys, p: Process, pid: int)
    requires Good(k, g) && Blank(k, g, keys) && 1 <= p.memorySize <= Pow2(k) && Takes(keys, pid)
    ensures Possible(k, g, Iterate(Some(p), [pid]))
    ensures var h := Forked(k, g, Some(p), [pid]);
            Possible(k, h, Exit(pid)) && Blank(k, Exited(k, h, pid), Enter(keys, pid))
  {
    hide Suits, Slot, Forked, Exited, Iteration, Kept, BuddyLayout.Valid;
    BlankArrival(k, g, keys, p, pid);
    LastOwnerGoes(k, Forked(k, g, Some(p), [pid]), pid);
  }

  /** If it does not, the process leaves its block behind. */
  lemma ComeAndLeak(k: nat, g: State, keys: Keys, p: Process, pid: int)
    requires Good(k, g) && Blank(k, g, keys) && 1 <= p.memorySize <= Pow2(k) && !Takes(keys, pid) && Some(pid) !in keys
    ensures Possible(k, g, Iterate(Some(p), [pid]))
    ensures var h := Forked(k, g, Some(p), [pid]);
            && Possible(k, h, Exit(pid))
            && var e := Exited(k, h, pid);
            e.running == map[] && e.waiting == [] && e.books.owners == map[] && e.books.leaked != {}
            && Live(e.layout) == e.books.leaked
  {
    BlankArrival(k, g, keys, p, pid);
    var h := Forked(k, g, Some(p), [pid]);
    var e := Exited(k, h, pid);
    LiveIsLeaked(k, e);
  }

  lemma OneMorePair(k: nat, before: seq<Event>, keys: Keys, p: Process, pid: int) returns (run: seq<Event>)
    requires LegalRun(k, before) && Blank(k, After(k, before), keys)
    requires 1 <= p.memorySize <= Pow2(k) && Takes(keys, pid)
    ensures LegalRun(k, run) && Blank(k, After(k, run), Enter(keys, pid)) && |run| == |before| + 2
  {
    hide Blank, Takes, Enter, Kept, Exited, Forked, BuddyLayout.Valid;
    assert |keys| > 0 && Good(k, After(k, before)) by {
      BlankHasKeys(k, After(k, before), keys);
    }
    ComeAndGo(k, After(k, before), keys, p, pid);
    Extend(k, before, Iterate(Some(p), [pid]));
    var middle := before + [Iterate(Some(p), [pid])];
    Extend(k, middle, Exit(pid));
    run := middle + [Exit(pid)];
  }

  lemma BlankHasKeys(k: nat, g: State, keys: Keys)
    requires Blank(k, g, keys)
    ensures |keys| > 0
  {
  }

  ghost predicate TakesEach(pids: seq<int>) {
    forall i :: 0 <= i < |pids| ==> Takes(EnterAll(NoKeys(100), pids[..i]), pids[i])
  }

  lemma TakesEachButLast(pids: seq<int>)
    requires TakesEach(pids) && pids != []
    ensures TakesEach(pids[..|pids| - 1])
    ensures Takes(EnterAll(NoKeys(100), pids[..|pids| - 1]), pids[|pids| - 1])
  {
    var n := |pids| - 1;
    forall i | 0 <= i < n
      ensures Takes(EnterAll(NoKeys(100), pids[..n][..i]), pids[..n][i])
    {
      assert pids[..n][..i] == pids[..i];
    }
  }

  /** Processes that come and go one after the other, with these pids. */
  lemma {:induction false} ComersAndGoers(k: nat, p: Process, pids: seq<int>) returns (run: seq<Event>)
    requires 1 <= p.memorySize <= Pow2(k) && TakesEach(pids)
    ensures LegalRun(k, run) && Blank(k, After(k, run), EnterAll(NoKeys(100), pids))
    ensures |run| == 2 * |pids|
    decreases |pids|
  {
    if pids == [] {
      run := [];
    } else {
      hide TakesEach, Takes, Enter, Blank;
      var n := |pids| - 1;
      TakesEachButLast(pids);
      var before := ComersAndGoers(k, p, pids[..n]);
      run := OneMorePair(k, before, EnterAll(NoKeys(100), pids[..n]), p, pids[n]);
    }
  }

  lemma LastLeaks(k: nat, before: seq<Event>, keys: Keys, p: Process, pid: int) returns (run: seq<Event>)
    requires LegalRun(k, before) && Blank(k, After(k, before), keys) && |keys| > 0
    requires 1 <= p.memorySize <= Pow2(k) && !Takes(keys, pid) && Some(pid) !in keys
    ensures LegalRun(k, run) && |run| == |before| + 2 && Spoilt(After(k, run))
  {
    hide Blank, Takes, Enter, Kept, Exited, Forked, BuddyLayout.Valid;
    ComeAndLeak(k, After(k, before), keys, p, pid);
    Extend(k, before, Iterate(Some(p), [pid]));
    var middle := before + [Iterate(Some(p), [pid])];
    Extend(k, middle, Exit(pid));
    run := middle + [Exit(pid)];
  }

  /** Nobody runs, waits or owns a block, and yet blocks are live: the leaked ones. */
  ghost predicate Spoilt(g: State) {
    && g.running == map[] && g.waiting == [] && g.books.owners == map[]
    && Live(g.layout) == g.books.leaked != {}
  }

  lemma TenAreTaken()
    ensures TakesEach(COLLIDING[..10])
    ensures var keys := EnterAll(NoKeys(100), COLLIDING[..10]);
            !Takes(keys, COLLIDING[10]) && Some(COLLIDING[10]) !in keys
  {
    CollidingPids();
    var ten := COLLIDING[..10];
    forall i | 0 <= i < 10
      ensures Takes(EnterAll(NoKeys(100), ten[..i]), ten[i])
    {
      EleventhFails(COLLIDING, i);
      assert ten[..i] == COLLIDING[..i];
    }
    EleventhFails(COLLIDING, 10);
    NotEntered(COLLIDING[10], ten);
  }

  /** Eleven processes, one at a time, whose pids have one home bucket: all have exited, yet memory is not whole. */
  lemma LeakyRun(k: nat, p: Process) returns (run: seq<Event>)
    requires 1 <= p.memorySize <= Pow2(k)
    ensures LegalRun(k, run) && |run| == 22
    ensures Spoilt(After(k, run)) && After(k, run).layout != Initial(k)
  {
    hide Blank, Takes, Enter, TakesEach, EnterAll;
    TenAreTaken();
    var keys := EnterAll(NoKeys(100), COLLIDING[..10]);
    var before := ComersAndGoers(k, p, COLLIDING[..10]);
    run := LastLeaks(k, before, keys, p, COLLIDING[10]);
    InitialLayout(k, After(k, run).layout);
  }

  /** After that a request for all of memory waits, though no process runs, and waits forever. */
  lemma DeadlockedRun(k: nat, p: Process, q: Process) returns (run: seq<Event>)
    requires 1 <= p.memorySize <= Pow2(k) && q.memorySize == Pow2(k)
    ensures LegalRun(k, run)
    ensures var g := After(k, run);
            g.running == map[] && g.waiting == [q] && Units(q) >= 1 && Blocked(k, g.books.leaked, Units(q))
  {
    var before := LeakyRun(k, p);
    var g := After(k, before);
    var c :| c in Live(g.layout);
    LeftoverBlocks(k, g.layout, c);
    ServedIffNotBlocked(k, g.layout, Units(q));
    assert AdmitAll(k, g.layout, []) == Admitted(g.layout, [], []);
    var r := Iteration(k, g.layout, [], Some(q));
    assert r == Admitted(g.layout, [q], []);
    Extend(k, before, Iterate(Some(q), []));
    run := before + [Iterate(Some(q), [])];
  }

  /** With a block live, all of memory is not free. */
  lemma LeftoverBlocks(k: nat, s: Layout, c: Chunk)
    requires Valid(k, s) && c in Live(s)
    ensures !CanServe(s, Pow2(k))
  {
    var i :| 0 <= i < |s| && s[i] == c;
    forall j | 0 <= j < |s|
      ensures !Fits(s[j], Pow2(k))
    {
      Bounds(0, Pow2(k), s, i);
      Bounds(0, Pow2(k), s, j);
      if j < i {
        Ordered(s, j, i);
      } else if i < j {
        Ordered(s, i, j);
      }
    }
  }
}
