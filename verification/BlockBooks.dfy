/**
  Who holds which block, on values: the keys in the pid map, the blocks owned, and the blocks whose
  processes the map did not take.
 */
module BlockBooks {
  import opened Dyadic
  import opened BuddyLayout
  import opened BuddyOperations
  import opened Processes
  import opened AdmissionModel
  import opened HashMap

  datatype Books = Books(keys: Keys, owners: map<int, Chunk>, leaked: set<Chunk>)

  ghost function Held(owners: map<int, Chunk>): set<Chunk> {
    set p | p in owners :: owners[p]
  }

  /** assign_memory_block_to_process: the block gets an owner exactly when the map takes the pid. */
  function Assign(b: Books, pid: int, c: Chunk): Books
    requires |b.keys| > 0
  {
    if Takes(b.keys, pid)
    then Books(Enter(b.keys, pid), b.owners[pid := c], b.leaked)
    else Books(b.keys, b.owners, b.leaked + {c})
  }

  /** The blocks in cs are freed; their entries in the map stay behind. */
  ghost function Strike(b: Books, cs: set<Chunk>): Books {
    Books(b.keys, map p | p in b.owners && b.owners[p] !in cs :: b.owners[p], b.leaked - cs)
  }

  /** Each live block has one owner or is leaked, and nothing else is owned or leaked. */
  ghost predicate Balanced(s: Layout, b: Books) {
    && |b.keys| > 0
    && Live(s) == Held(b.owners) + b.leaked && Held(b.owners) !! b.leaked
    && forall p, q :: p in b.owners && q in b.owners && p != q ==> b.owners[p] != b.owners[q]
  }

  /** The block is of the least power of two that holds what p asked for. */
  ghost predicate Suits(c: Chunk, p: Process) {
    c.requested == p.memorySize >= 1 && c.size == Pow2(CeilLog2(c.requested)) && c.requested <= c.size < 2 * c.requested
  }

  /**
    The books about the running processes: owners run, own what they asked for, and nobody else runs unless
    blocks leaked.
   */
  ghost predicate Kept(s: Layout, b: Books, running: map<int, Process>) {
    && Balanced(s, b)
    && (forall p :: p in b.owners ==> p in running && Suits(b.owners[p], running[p]))
    && (b.leaked == {} ==> forall p :: p in running ==> p in b.owners)
  }

  // ---------- a fork ----------

  /** The block that a request that can be served will get. */
  function GrantedChunk(k: nat, s: Layout, n: nat): (c: Chunk)
    requires Valid(k, s) && n >= 1 && CanServe(s, n)
    ensures c !in Live(s) && Live(Granted(k, s, n)) == Live(s) + {c}
    ensures c == Chunk(s[BestFit(s, n).value].start, Pow2(CeilLog2(n)), n)
  {
    AllocateKeeps(k, s, n);
    Chunk(s[BestFit(s, n).value].start, Pow2(CeilLog2(n)), n)
  }

  lemma HeldPlus(owners: map<int, Chunk>, p: int, c: Chunk)
    requires p !in owners
    ensures Held(owners[p := c]) == Held(owners) + {c}
  {
    var m := owners[p := c];
    forall x
      ensures x in Held(m) <==> x in Held(owners) + {c}
    {
      if x in Held(owners) {
        var q :| q in owners && owners[q] == x;
        assert m[q] == x;
      }
      assert m[p] == c;
    }
  }

  lemma AssignBalances(s: Layout, t: Layout, b: Books, pid: int, c: Chunk)
    requires Balanced(s, b) && pid !in b.owners && c !in Live(s) && Live(t) == Live(s) + {c}
    ensures Balanced(t, Assign(b, pid, c))
  {
    HeldPlus(b.owners, pid, c);
    assert forall p :: p in b.owners ==> b.owners[p] in Held(b.owners);
  }

  lemma GrantSuits(k: nat, s: Layout, p: Process)
    requires Valid(k, s) && p.memorySize >= 1 && CanServe(s, Units(p))
    ensures Suits(GrantedChunk(k, s, Units(p)), p)
  {
    GrantIsTight(Units(p));
  }

  lemma AssignKeeps(k: nat, s: Layout, b: Books, running: map<int, Process>, pid: int, p: Process)
    requires Valid(k, s) && Kept(s, b, running) && pid !in running && p.memorySize >= 1 && CanServe(s, Units(p))
    ensures Kept(Granted(k, s, Units(p)), Assign(b, pid, GrantedChunk(k, s, Units(p))), running[pid := p])
  {
    var c := GrantedChunk(k, s, Units(p));
    AssignBalances(s, Granted(k, s, Units(p)), b, pid, c);
    GrantSuits(k, s, p);
  }

  // ---------- forks in a row ----------

  /** Each of ps can be served when those before it have been. */
  ghost predicate InTurn(k: nat, s: Layout, ps: seq<Process>)
    requires Valid(k, s)
    decreases |ps|
  {
    ps == [] ||
    (ps[0].memorySize >= 1 && CanServe(s, Units(ps[0])) && InTurn(k, Granted(k, s, Units(ps[0])), ps[1..]))
  }

  ghost function GrantAll(k: nat, s: Layout, ps: seq<Process>): (t: Layout)
    requires Valid(k, s) && InTurn(k, s, ps)
    ensures Valid(k, t)
    decreases |ps|
  {
    if ps == [] then s else GrantAll(k, Granted(k, s, Units(ps[0])), ps[1..])
  }

  ghost function AssignAll(k: nat, s: Layout, b: Books, ps: seq<Process>, pids: seq<int>): (c: Books)
    requires Valid(k, s) && InTurn(k, s, ps) && |pids| >= |ps| && |b.keys| > 0
    ensures |c.keys| == |b.keys|
    decreases |ps|
  {
    if ps == [] then b
    else
      AssignAll(k, Granted(k, s, Units(ps[0])), Assign(b, pids[0], GrantedChunk(k, s, Units(ps[0]))), ps[1..],
              pids[1..])
  }

  ghost function StartAll(running: map<int, Process>, ps: seq<Process>, pids: seq<int>): map<int, Process>
    requires |pids| >= |ps|
    decreases |ps|
  {
    if ps == [] then running else StartAll(running[pids[0] := ps[0]], ps[1..], pids[1..])
  }

  /** The operating system gives no pid twice and none that is taken. */
  ghost predicate FreshPids(pids: seq<int>, taken: set<int>) {
    && (forall i :: 0 <= i < |pids| ==> pids[i] !in taken)
    && (forall i, j :: 0 <= i < j < |pids| ==> pids[i] != pids[j])
  }

  /** Forks in a row keep the books. */
  lemma {:induction false} AssignAllKeeps(k: nat, s: Layout, b: Books, running: map<int, Process>,
          ps: seq<Process>, pids: seq<int>)
    requires Valid(k, s) && InTurn(k, s, ps) && |pids| >= |ps| && Kept(s, b, running) && FreshPids(pids, running.Keys)
    ensures Kept(GrantAll(k, s, ps), AssignAll(k, s, b, ps, pids), StartAll(running, ps, pids))
    decreases |ps|
  {
    if ps == [] {
    } else {
      var t := Granted(k, s, Units(ps[0]));
      AssignKeeps(k, s, b, running, pids[0], ps[0]);
      assert FreshPids(pids[1..], running[pids[0] := ps[0]].Keys);
      AssignAllKeeps(k, t, Assign(b, pids[0], GrantedChunk(k, s, Units(ps[0]))), running[pids[0] := ps[0]], ps[1..],
              pids[1..]);
    }
  }

  lemma {:induction false} TurnPlus(k: nat, s: Layout, ps: seq<Process>, p: Process)
    requires Valid(k, s) && InTurn(k, s, ps)
    requires p.memorySize >= 1 && CanServe(GrantAll(k, s, ps), Units(p))
    ensures InTurn(k, s, ps + [p])
    ensures GrantAll(k, s, ps + [p]) == Granted(k, GrantAll(k, s, ps), Units(p))
    decreases |ps|
  {
    var qs := ps + [p];
    if ps == [] {
      assert qs[1..] == [];
    } else {
      assert qs[1..] == ps[1..] + [p];
      TurnPlus(k, Granted(k, s, Units(ps[0])), ps[1..], p);
    }
  }

  /** One more fork at the end of a row. */
  lemma {:induction false} OneMoreFork(k: nat, s: Layout, b: Books, ps: seq<Process>, pids: seq<int>, p: Process)
    requires Valid(k, s) && InTurn(k, s, ps) && |pids| > |ps| && |b.keys| > 0
    requires p.memorySize >= 1 && CanServe(GrantAll(k, s, ps), Units(p)) && InTurn(k, s, ps + [p])
    ensures AssignAll(k, s, b, ps + [p], pids)
         == Assign(AssignAll(k, s, b, ps, pids), pids[|ps|], GrantedChunk(k, GrantAll(k, s, ps), Units(p)))
    decreases |ps|
  {
    hide Takes, Enter, CanServe, Granted;
    var qs := ps + [p];
    if ps == [] {
      assert qs[1..] == [];
    } else {
      assert qs[1..] == ps[1..] + [p];
      var t := Granted(k, s, Units(ps[0]));
      OneMoreFork(k, t, Assign(b, pids[0], GrantedChunk(k, s, Units(ps[0]))), ps[1..], pids[1..], p);
    }
  }

  /** Whom the admission loop admits, it can serve one after the other. */
  lemma {:induction false} AdmittedInTurn(k: nat, s: Layout, w: seq<Process>)
    requires Valid(k, s) && Asking(w)
    ensures var r := AdmitAll(k, s, w); InTurn(k, s, r.admitted) && GrantAll(k, s, r.admitted) == r.layout
    decreases |w|
  {
    if OldestFit(s, w).None? {
    } else {
      var i, t, v := AdmitStep(k, s, w);
      var r := AdmitAll(k, t, v);
      AdmittedInTurn(k, t, v);
      assert ([w[i]] + r.admitted)[1..] == r.admitted;
    }
  }

  // ---------- when nothing leaks ----------

  /** The map takes each of the pids in its turn. */
  ghost predicate TakesAll(b: Keys, pids: seq<int>)
    requires |b| > 0
    decreases |pids|
  {
    pids == [] || (Takes(b, pids[0]) && TakesAll(Enter(b, pids[0]), pids[1..]))
  }

  lemma {:induction false} OwnersStay(k: nat, s: Layout, b: Books, ps: seq<Process>, pids: seq<int>, q: int)
    requires Valid(k, s) && InTurn(k, s, ps) && |pids| == |ps| && |b.keys| > 0
    requires q in b.owners && q !in pids
    ensures var c := AssignAll(k, s, b, ps, pids); q in c.owners && c.owners[q] == b.owners[q]
    decreases |ps|
  {
    if ps == [] {
    } else {
      OwnersStay(k, Granted(k, s, Units(ps[0])), Assign(b, pids[0], GrantedChunk(k, s, Units(ps[0]))), ps[1..],
              pids[1..], q);
    }
  }

  ghost predicate OwnsAll(owners: map<int, Chunk>, ps: seq<Process>, pids: seq<int>) {
    |pids| == |ps| && forall j :: 0 <= j < |ps| ==> pids[j] in owners && Suits(owners[pids[j]], ps[j])
  }

  lemma OwnsFirst(owners: map<int, Chunk>, ps: seq<Process>, pids: seq<int>)
    requires |pids| == |ps| > 0 && OwnsAll(owners, ps[1..], pids[1..])
    requires pids[0] in owners && Suits(owners[pids[0]], ps[0])
    ensures OwnsAll(owners, ps, pids)
  {
    forall j | 0 <= j < |ps|
      ensures pids[j] in owners && Suits(owners[pids[j]], ps[j])
    {
      if j > 0 {
        assert pids[j] == pids[1..][j - 1] && ps[j] == ps[1..][j - 1];
      }
    }
  }

  lemma FreshTail(pids: seq<int>, taken: set<int>)
    requires pids != [] && FreshPids(pids, taken)
    ensures FreshPids(pids[1..], taken + {pids[0]}) && pids[0] !in pids[1..] && pids[0] !in taken
  {
  }

  /** If the map takes every pid, every forked process owns a block that suits it, and nothing leaks. */
  lemma {:induction false} EveryForkOwns(k: nat, s: Layout, b: Books, ps: seq<Process>, pids: seq<int>)
    requires Valid(k, s) && InTurn(k, s, ps) && |pids| == |ps| && |b.keys| > 0
    requires FreshPids(pids, b.owners.Keys) && TakesAll(b.keys, pids)
    ensures var c := AssignAll(k, s, b, ps, pids);
            c.leaked == b.leaked && OwnsAll(c.owners, ps, pids)
    decreases |ps|
  {
    hide Takes, Enter, CanServe, Granted, Suits, OwnsAll, FreshPids;
    if ps == [] {
      assert OwnsAll(b.owners, [], []) by {
        NobodyOwns(b.owners);
      }
    } else {
      var t, d := Granted(k, s, Units(ps[0])), Assign(b, pids[0], GrantedChunk(k, s, Units(ps[0])));
      FreshTail(pids, b.owners.Keys);
      assert d.owners.Keys == b.owners.Keys + {pids[0]};
      EveryForkOwns(k, t, d, ps[1..], pids[1..]);
      OwnersStay(k, t, d, ps[1..], pids[1..], pids[0]);
      GrantSuits(k, s, ps[0]);
      OwnsFirst(AssignAll(k, s, b, ps, pids).owners, ps, pids);
    }
  }

  lemma NobodyOwns(owners: map<int, Chunk>)
    ensures OwnsAll(owners, [], [])
  {
  }

  /** Leaked blocks stay leaked. */
  lemma {:induction false} LeaksStay(k: nat, s: Layout, b: Books, ps: seq<Process>, pids: seq<int>)
    requires Valid(k, s) && InTurn(k, s, ps) && |pids| >= |ps| && |b.keys| > 0
    ensures b.leaked <= AssignAll(k, s, b, ps, pids).leaked
    decreases |ps|
  {
    if ps == [] {
    } else {
      LeaksStay(k, Granted(k, s, Units(ps[0])), Assign(b, pids[0], GrantedChunk(k, s, Units(ps[0]))), ps[1..],
              pids[1..]);
    }
  }

  /** Nothing leaks exactly when the map takes every pid in its turn. */
  lemma {:induction false} NothingLeaksIff(k: nat, s: Layout, b: Books, ps: seq<Process>, pids: seq<int>)
    requires Valid(k, s) && InTurn(k, s, ps) && |pids| == |ps| && |b.keys| > 0 && b.leaked <= Live(s)
    ensures AssignAll(k, s, b, ps, pids).leaked == b.leaked <==> TakesAll(b.keys, pids)
    decreases |ps|
  {
    if ps == [] {
    } else {
      hide Takes, Enter, CanServe, Granted;
      var t, c := Granted(k, s, Units(ps[0])), GrantedChunk(k, s, Units(ps[0]));
      var d := Assign(b, pids[0], c);
      LeaksStay(k, t, d, ps[1..], pids[1..]);
      NothingLeaksIff(k, t, d, ps[1..], pids[1..]);
      if !Takes(b.keys, pids[0]) {
        assert c in d.leaked && c !in b.leaked;
      }
    }
  }

  // ---------- exits ----------

  /** After the blocks in cs are freed the books are still balanced. */
  lemma StrikeBalances(s: Layout, t: Layout, b: Books, cs: set<Chunk>)
    requires Balanced(s, b) && Live(t) == Live(s) - cs
    ensures Balanced(t, Strike(b, cs))
  {
    var d := Strike(b, cs);
    forall x
      ensures x in Held(d.owners) <==> x in Held(b.owners) - cs
    {
      if x in Held(b.owners) - cs {
        var p :| p in b.owners && b.owners[p] == x;
        assert d.owners[p] == x;
      }
    }
  }

  /** An owner's own block is freed: the others keep theirs. */
  lemma StrikeOwn(s: Layout, b: Books, p: int)
    requires Balanced(s, b) && p in b.owners
    ensures Strike(b, {b.owners[p]}) == Books(b.keys, b.owners - {p}, b.leaked)
  {
    assert b.owners[p] in Held(b.owners);
    var d := Strike(b, {b.owners[p]});
    forall q
      ensures q in d.owners <==> q in b.owners - {p}
    {
      if q in b.owners && q != p {
        assert b.owners[q] != b.owners[p];
      }
    }
    assert d.leaked == b.leaked;
  }
}
