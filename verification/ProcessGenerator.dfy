/**
  The process generator: it admits processes as memory allows, forks them and sends them to the
  scheduler, and takes their memory back when they exit. The pids that fork will return are an input;
  the messages sent to the scheduler are returned.
 */
module ProcessGenerator {
  import opened Options
  import opened Processes
  import opened BuddyLayout
  import opened BuddyOperations
  import opened BuddyMemory
  import opened MemoryManager
  import opened AdmissionModel
  import opened BlockBooks
  import opened AdmissionRuns
  import opened HashMap
  import opened Arrivals

  /** The messages for processes forked in this order with these pids. */
  ghost function Messages(pids: seq<int>, ps: seq<Process>): (ms: seq<Pcb>)
    requires |ps| <= |pids|
    ensures |ms| == |ps|
  {
    seq(|ps|, i requires 0 <= i < |ps| => NewPcb(pids[i], ps[i]))
  }

  lemma PidFresh(pids: seq<int>, n: nat, taken: set<int>)
    requires n < |pids| && FreshPids(pids[n..], taken)
    ensures pids[n] !in taken
  {
    assert pids[n] == pids[n..][0];
  }

  lemma FreshAfterFork(pids: seq<int>, n: nat, taken: set<int>, more: set<int>)
    requires n < |pids| && FreshPids(pids[n..], taken) && more <= taken + {pids[n]}
    ensures FreshPids(pids[n + 1..], more)
  {
    assert forall i :: n <= i < |pids| ==> pids[i] == pids[n..][i - n];
  }

  /** The scan of get_oldest_fit. */
  method FindOldestFit(memory: Memory, waiting: seq<Process>) returns (found: Option<nat>)
    requires memory.Valid()
    ensures found == OldestFit(memory.Chunks(), waiting)
  {
    var i := 0;
    while i < |waiting|
      invariant 0 <= i <= |waiting|
      invariant forall j :: 0 <= j < i ==> !CanServe(memory.Chunks(), Units(waiting[j]))
    {
      var block := memory.GetSmallestBlockAvailable(Units(waiting[i]));
      if block != null {
        OldestFitIs(memory.Chunks(), waiting, i);
        return Some(i);
      }
      i := i + 1;
    }
    return None;
  }

  ghost predicate OldestTaken(s: Layout, w: seq<Process>, process: Option<Process>, rest: seq<Process>) {
    match OldestFit(s, w)
    case None => process == None && rest == w
    case Some(i) => process == Some(w[i]) && rest == Without(w, i)
  }

  /** get_oldest_fit: the earliest waiting process that fits, and the list without it. */
  method GetOldestFit(memory: Memory, waiting: seq<Process>) returns (process: Option<Process>, rest: seq<Process>)
    requires memory.Valid()
    ensures OldestTaken(memory.Chunks(), waiting, process, rest) && (process == None ==> rest == waiting)
  {
    var found := FindOldestFit(memory, waiting);
    if found == None {
      return None, waiting;
    }
    return Some(waiting[found.value]), waiting[..found.value] + waiting[found.value + 1..];
  }

  /** The parent's half of fork_and_send: the block is recorded, if the map takes the pid, and the new PCB is sent. */
  method ForkAndSend(manager: Manager, pid: int, process: Process, block: Block) returns (message: Pcb)
    requires manager.Valid({block}) && pid !in manager.owners
    modifies manager`owners, manager`leaked, manager`books, manager.memoryMap, manager.memoryMap.buckets
    ensures manager.Valid({}) && message == NewPcb(pid, process)
    ensures message.pid == pid && message.process == process && message.remaining == process.runtime
    ensures message.startTime == -1 && message.waitTime == 0
    ensures manager.memory.Chunks() == old(manager.memory.Chunks())
    ensures manager.memory.nodes == old(manager.memory.nodes)
    ensures manager.books == Assign(old(manager.books), pid, block.Value())
    ensures var taken := Takes(old(manager.books).keys, pid);
            && manager.owners == (if taken then old(manager.owners)[pid := block] else old(manager.owners))
            && manager.leaked == (if taken then old(manager.leaked) else old(manager.leaked) + {block})
            && (taken ==> pid in manager.memoryMap.contents
                          && manager.memoryMap.contents[pid] == ProcessMemory(block, process.id))
  {
    var ok := manager.AssignMemoryBlock(pid, process.id, block);
    message := NewPcb(pid, process);
  }

  lemma GrantedIs(k: nat, s: Layout, n: nat)
    requires Valid(k, s) && n >= 1 && CanServe(s, n)
    ensures BestFit(s, n).Some?
    ensures Allocate(s, n).Some? && Allocate(s, n).value.0 == Granted(k, s, n)
    ensures BestFit(s, n).value < |Granted(k, s, n)|
    ensures Granted(k, s, n)[BestFit(s, n).value] == GrantedChunk(k, s, n)
  {
    AllocateKeeps(k, s, n);
  }

  /**
    The block that get_smallest_block finds before the allocation is the very block that is allocated,
    so forking with the former records the latter.
   */
  method Reserve(manager: Manager, process: Process) returns (fit: Block)
    requires manager.Valid({}) && process.memorySize >= 1 && CanServe(manager.memory.Chunks(), Units(process))
    modifies manager.memory`nodes, manager.memory.nodes
    ensures manager.Valid({fit})
    ensures manager.memory.Chunks() == Granted(manager.memory.k, old(manager.memory.Chunks()), Units(process))
    ensures fit.Value() == GrantedChunk(manager.memory.k, old(manager.memory.Chunks()), Units(process))
    ensures fresh(set b | b in manager.memory.nodes && b !in old(manager.memory.nodes))
  {
    hide Manager.Recorded, Manager.Balanced, Memory.Linked, Memory.Chunks;
    hide BestFit, Allocate, CanServe, Granted, GrantedChunk, BuddyLayout.Valid;
    var n := Units(process);
    GrantedIs(manager.memory.k, manager.memory.Chunks(), n);
    var found := manager.GetSmallestBlock(n);
    var block := manager.AllocateProcessMemory(n);
    assert block != null && found == block;
    fit := found;
  }

  /** The body of the admission loop, for a process that fits; n pids have been used. */
  method AdmitOne(manager: Manager, pids: seq<int>, n: nat, process: Process) returns (message: Pcb)
    requires manager.Valid({}) && n < |pids| && FreshPids(pids[n..], manager.owners.Keys)
    requires process.memorySize >= 1 && CanServe(manager.memory.Chunks(), Units(process))
    modifies manager`owners, manager`leaked, manager`books, manager.memoryMap, manager.memoryMap.buckets
    modifies manager.memory`nodes, manager.memory.nodes
    ensures manager.Valid({}) && message == NewPcb(pids[n], process)
    ensures manager.memory.Chunks() == Granted(manager.memory.k, old(manager.memory.Chunks()), Units(process))
    ensures manager.books == Assign(old(manager.books), pids[n],
                                    GrantedChunk(manager.memory.k, old(manager.memory.Chunks()), Units(process)))
    ensures FreshPids(pids[n + 1..], manager.owners.Keys)
    ensures fresh(set b | b in manager.memory.nodes && b !in old(manager.memory.nodes))
  {
    hide Manager.Recorded, Manager.Balanced, Manager.Tied, Memory.Linked, Memory.Chunks;
    hide BestFit, Allocate, CanServe, Granted, GrantedChunk, BuddyLayout.Valid, FreshPids, Assign, Takes;
    ghost var taken := manager.owners.Keys;
    PidFresh(pids, n, taken);
    var fit := Reserve(manager, process);
    message := ForkAndSend(manager, pids[n], process, fit);
    FreshAfterFork(pids, n, taken, manager.owners.Keys);
  }

  lemma NextMessage(pids: seq<int>, done: seq<Process>, p: Process)
    requires |done| < |pids|
    ensures Messages(pids, done + [p]) == Messages(pids, done) + [NewPcb(pids[|done|], p)]
  {
  }

  /** Where the loop started. */
  datatype Origin = Origin(k: nat, layout: Layout, books: Books, pids: seq<int>)

  ghost predicate Usable(o: Origin) {
    Valid(o.k, o.layout) && |o.books.keys| > 0
  }

  /** Where the admission loop stands: a has been admitted, and w is still to be gone through. */
  ghost predicate Underway(o: Origin, goal: Admitted, s: Layout, b: Books, w: seq<Process>, a: seq<Process>) {
    && Usable(o) && Asking(w) && |a| + |w| <= |o.pids|
    && InTurn(o.k, o.layout, a) && s == GrantAll(o.k, o.layout, a)
    && b == AssignAll(o.k, o.layout, o.books, a, o.pids)
    && var r := AdmitAll(o.k, s, w);
    goal == Admitted(r.layout, r.waiting, a + r.admitted)
  }

  lemma {:induction false} Begin(o: Origin, w: seq<Process>)
    requires Usable(o) && Asking(w) && |w| <= |o.pids|
    ensures Underway(o, AdmitAll(o.k, o.layout, w), o.layout, o.books, w, [])
  {
    var r := AdmitAll(o.k, o.layout, w);
    assert [] + r.admitted == r.admitted;
  }

  lemma {:induction false} TakenStep(k: nat, s: Layout, w: seq<Process>, p: Process, rest: seq<Process>)
    requires Valid(k, s) && Asking(w) && OldestTaken(s, w, Some(p), rest)
    ensures Asking(rest) && |rest| + 1 == |w| && p.memorySize >= 1 && CanServe(s, Units(p))
    ensures AdmitAll(k, s, w) == First(p, AdmitAll(k, Granted(k, s, Units(p)), rest))
  {
    var i, t, v := AdmitStep(k, s, w);
  }

  lemma {:induction false} OneRound(o: Origin, goal: Admitted, s: Layout, b: Books, w: seq<Process>, a: seq<Process>,
                 p: Process, rest: seq<Process>)
    requires Underway(o, goal, s, b, w, a) && OldestTaken(s, w, Some(p), rest)
    ensures |rest| < |w| && |a| < |o.pids| && |b.keys| > 0
    ensures p.memorySize >= 1 && Valid(o.k, s) && CanServe(s, Units(p))
    ensures Underway(o, goal, Granted(o.k, s, Units(p)), Assign(b, o.pids[|a|], GrantedChunk(o.k, s, Units(p))),
            rest, a + [p])
  {
    hide Granted, GrantedChunk, AdmitAll, CanServe, OldestTaken, Assign, AssignAll, InTurn, GrantAll, BuddyLayout.Valid;
    TakenStep(o.k, s, w, p, rest);
    TurnPlus(o.k, o.layout, a, p);
    OneMoreFork(o.k, o.layout, o.books, a, o.pids, p);
    var r := AdmitAll(o.k, Granted(o.k, s, Units(p)), rest);
    assert a + ([p] + r.admitted) == (a + [p]) + r.admitted;
  }

  lemma {:induction false} Finished(o: Origin, goal: Admitted, s: Layout, b: Books, w: seq<Process>, a: seq<Process>)
    requires Underway(o, goal, s, b, w, a) && OldestTaken(s, w, None, w)
    ensures goal == Admitted(s, w, a) && |a| <= |o.pids| && Usable(o) && InTurn(o.k, o.layout, a)
    ensures b == AssignAll(o.k, o.layout, o.books, a, o.pids)
  {
    assert a + [] == a;
  }

  /** The body of the admission loop: the oldest process that fits, if there is one, is admitted. */
  method AdmitOldest(manager: Manager, pids: seq<int>, n: nat, waiting: seq<Process>,
                     ghost o: Origin, ghost goal: Admitted, ghost admitted: seq<Process>)
    returns (process: Option<Process>, left: seq<Process>, messages: seq<Pcb>)
    requires manager.Valid({}) && o.k == manager.memory.k && o.pids == pids && n == |admitted| <= |pids|
    requires Underway(o, goal, manager.memory.Chunks(), manager.books, waiting, admitted)
    requires FreshPids(pids[n..], manager.owners.Keys)
    modifies manager`owners, manager`leaked, manager`books, manager.memoryMap, manager.memoryMap.buckets
    modifies manager.memory`nodes, manager.memory.nodes
    ensures manager.Valid({}) && n + |messages| <= |pids| && FreshPids(pids[n + |messages|..], manager.owners.Keys)
    ensures process == None ==> OldestTaken(manager.memory.Chunks(), waiting, None, waiting)
    ensures process == None ==> left == waiting && messages == []
    ensures process.Some? ==> |left| < |waiting| && n < |pids| && messages == [NewPcb(pids[n], process.value)]
    ensures Underway(o, goal, manager.memory.Chunks(), manager.books, left,
                     if process == None then admitted else admitted + [process.value])
    ensures fresh(set b | b in manager.memory.nodes && b !in old(manager.memory.nodes))
  {
    hide Manager.Recorded, Manager.Balanced, Memory.Linked, Memory.Chunks, Assign, AssignAll, InTurn;
    hide BestFit, Allocate, CanServe, Granted, GrantedChunk;
    hide AdmitAll, Underway, OldestTaken, FreshPids, BuddyLayout.Valid;
    process, left := GetOldestFit(manager.memory, waiting);
    messages := [];
    if process != None {
      OneRound(o, goal, manager.memory.Chunks(), manager.books, waiting, admitted, process.value, left);
      var message := AdmitOne(manager, pids, n, process.value);
      messages := [message];
    }
  }

  /**
    The admission loop of create_processes: everybody who fits is admitted, the earliest first, each is
    forked and booked, and the scheduler is told in that order.
   */
  method AdmitWaiting(manager: Manager, waiting: seq<Process>, pids: seq<int>)
    returns (left: seq<Process>, messages: seq<Pcb>, ghost result: Admitted)
    requires manager.Valid({}) && Asking(waiting)
    requires |waiting| <= |pids| && FreshPids(pids, manager.owners.Keys)
    modifies manager`owners, manager`leaked, manager`books, manager.memoryMap, manager.memoryMap.buckets
    modifies manager.memory`nodes, manager.memory.nodes
    ensures manager.Valid({}) && |messages| <= |pids|
    ensures FreshPids(pids[|messages|..], manager.owners.Keys)
    ensures result == AdmitAll(manager.memory.k, old(manager.memory.Chunks()), waiting)
    ensures manager.memory.Chunks() == result.layout && left == result.waiting
    ensures |messages| == |result.admitted| && messages == Messages(pids, result.admitted)
    ensures |old(manager.books).keys| > 0 && InTurn(manager.memory.k, old(manager.memory.Chunks()), result.admitted)
    ensures manager.books == AssignAll(manager.memory.k, old(manager.memory.Chunks()), old(manager.books),
            result.admitted, pids)
    ensures fresh(set b | b in manager.memory.nodes && b !in old(manager.memory.nodes))
  {
    hide Manager.Recorded, Manager.Balanced, Memory.Linked, Memory.Chunks;
    hide Messages, Assign, AssignAll, InTurn, Asking, Units;
    hide BestFit, Allocate, CanServe, Granted, GrantedChunk;
    hide AdmitAll, Underway, OldestTaken, FreshPids, BuddyLayout.Valid;
    left, messages := waiting, [];
    ghost var k, admitted: seq<Process> := manager.memory.k, [];
    ghost var o := Origin(k, manager.memory.Chunks(), manager.books, pids);
    result := AdmitAll(k, o.layout, waiting);
    Begin(o, waiting);
    assert pids == pids[0..] && Messages(pids, []) == [];
    while true
      invariant manager.Valid({}) && |messages| == |admitted| <= |pids| && messages == Messages(pids, admitted)
      invariant Underway(o, result, manager.memory.Chunks(), manager.books, left, admitted)
      invariant FreshPids(pids[|admitted|..], manager.owners.Keys)
      invariant fresh(set b | b in manager.memory.nodes && b !in old(manager.memory.nodes))
      decreases |left|
    {
      var process, rest, more := AdmitOldest(manager, pids, |messages|, left, o, result, admitted);
      if process == None {
        Finished(o, result, manager.memory.Chunks(), manager.books, left, admitted);
        break;
      }
      NextMessage(pids, admitted, process.value);
      messages, left := messages + more, rest;
      admitted := admitted + [process.value];
    }
  }

  lemma ArriveIs(k: nat, s: Layout, w: seq<Process>, p: Process)
    requires Valid(k, s) && Asking(w) && p.memorySize >= 1
    ensures Allocate(s, Units(p)).None? <==> !CanServe(s, Units(p))
    ensures Arrive(k, s, w, p) == if CanServe(s, Units(p)) then Admitted(Granted(k, s, Units(p)), w, [p])
                                  else Admitted(s, w + [p], [])
    ensures CanServe(s, Units(p)) ==>
              && Allocate(s, Units(p)).value.0 == Granted(k, s, Units(p))
              && BestFit(s, Units(p)).Some? && BestFit(s, Units(p)).value < |Granted(k, s, Units(p))|
              && Granted(k, s, Units(p))[BestFit(s, Units(p)).value] == GrantedChunk(k, s, Units(p))
  {
    if CanServe(s, Units(p)) {
      GrantedIs(k, s, Units(p));
    }
  }

  /** The arrival branch of create_processes; n pids have been used. */
  method TakeArrival(manager: Manager, pids: seq<int>, n: nat, process: Process, waiting: seq<Process>)
    returns (left: seq<Process>, messages: seq<Pcb>, ghost result: Admitted)
    requires manager.Valid({}) && n < |pids| && FreshPids(pids[n..], manager.owners.Keys)
    requires process.memorySize >= 1 && Asking(waiting)
    modifies manager`owners, manager`leaked, manager`books, manager.memoryMap, manager.memoryMap.buckets
    modifies manager.memory`nodes, manager.memory.nodes
    ensures manager.Valid({}) && n + |messages| <= |pids|
    ensures FreshPids(pids[n + |messages|..], manager.owners.Keys)
    ensures result == Arrive(manager.memory.k, old(manager.memory.Chunks()), waiting, process)
    ensures manager.memory.Chunks() == result.layout && left == result.waiting
    ensures |messages| == |result.admitted| && messages == Messages(pids[n..], result.admitted)
    ensures result.admitted == [] ==> manager.books == old(manager.books)
    ensures result.admitted != [] ==>
              && result.admitted == [process] && CanServe(old(manager.memory.Chunks()), Units(process))
              && manager.books == Assign(old(manager.books), pids[n],
                                         GrantedChunk(manager.memory.k, old(manager.memory.Chunks()), Units(process)))
    ensures fresh(set b | b in manager.memory.nodes && b !in old(manager.memory.nodes))
  {
    hide Manager.Recorded, Manager.Balanced, Memory.Linked, Memory.Chunks;
    hide BestFit, Allocate, CanServe, Granted, GrantedChunk, Arrive, BuddyLayout.Valid, FreshPids, Assign, Takes;
    ghost var k, s, taken := manager.memory.k, manager.memory.Chunks(), manager.owners.Keys;
    ArriveIs(k, s, waiting, process);
    result := Arrive(k, s, waiting, process);
    var block := manager.AllocateProcessMemory(Units(process));
    if block == null {
      return waiting + [process], [], result;
    }
    PidFresh(pids, n, taken);
    var message := ForkAndSend(manager, pids[n], process, block);
    FreshAfterFork(pids, n, taken, manager.owners.Keys);
    left, messages := waiting, [message];
  }

  lemma MessagesOnward(pids: seq<int>, a: seq<Process>, b: seq<Process>)
    requires |a| + |b| <= |pids|
    ensures Messages(pids, a + b) == Messages(pids, a) + Messages(pids[|a|..], b)
  {
  }

  lemma {:induction false} WaitersCounted(k: nat, s: Layout, w: seq<Process>)
    requires Valid(k, s) && Asking(w)
    ensures var r := AdmitAll(k, s, w); |r.admitted| + |r.waiting| == |w|
  {
    WaitersKept(k, s, w);
    assert |multiset(w)| == |w|;
  }

  /** The books after the admissions and one more fork. */
  lemma {:induction false} OneMoreBooked(k: nat, s: Layout, b: Books, w: seq<Process>, p: Process, pids: seq<int>)
    requires Valid(k, s) && Asking(w) && |b.keys| > 0 && p.memorySize >= 1
    requires var r := AdmitAll(k, s, w); CanServe(r.layout, Units(p)) && |pids| > |r.admitted|
    ensures var r := AdmitAll(k, s, w);
            && InTurn(k, s, r.admitted) && InTurn(k, s, r.admitted + [p])
            && AssignAll(k, s, b, r.admitted + [p], pids)
               == Assign(AssignAll(k, s, b, r.admitted, pids), pids[|r.admitted|], GrantedChunk(k, r.layout, Units(p)))
  {
    hide Granted, GrantedChunk, AdmitAll, CanServe, Assign, BuddyLayout.Valid;
    AdmittedInTurn(k, s, w);
    var r := AdmitAll(k, s, w);
    TurnPlus(k, s, r.admitted, p);
    OneMoreFork(k, s, b, r.admitted, pids, p);
  }

  /**
    One iteration of the loop of create_processes. Whether an entry of the list was processed is told by
    its position: the array `processed` is set for exactly the entries before `next`.
   */
  method Iterate(manager: Manager, list: seq<Process>, i: nat, clk: int, waiting: seq<Process>, pids: seq<int>)
    returns (next: nat, left: seq<Process>, messages: seq<Pcb>, ghost result: Admitted)
    requires manager.Valid({}) && Asking(list) && Asking(waiting)
    requires |waiting| < |pids| && FreshPids(pids, manager.owners.Keys)
    modifies manager`owners, manager`leaked, manager`books, manager.memoryMap, manager.memoryMap.buckets
    modifies manager.memory`nodes, manager.memory.nodes
    ensures manager.Valid({}) && |messages| <= |pids|
    ensures FreshPids(pids[|messages|..], manager.owners.Keys)
    ensures result == Iteration(manager.memory.k, old(manager.memory.Chunks()), waiting, Due(list, i, clk))
    ensures manager.memory.Chunks() == result.layout && left == result.waiting
    ensures |messages| == |result.admitted| && messages == Messages(pids, result.admitted)
    ensures |old(manager.books).keys| > 0 && InTurn(manager.memory.k, old(manager.memory.Chunks()), result.admitted)
    ensures manager.books == AssignAll(manager.memory.k, old(manager.memory.Chunks()), old(manager.books),
            result.admitted, pids)
    ensures next == i + |ArrivalOf(Due(list, i, clk))|
    ensures fresh(set b | b in manager.memory.nodes && b !in old(manager.memory.nodes))
  {
    hide Manager.Recorded, Manager.Balanced, Memory.Linked, Memory.Chunks, InTurn, Assign, AssignAll, Takes;
    hide BestFit, Allocate, CanServe, Granted, GrantedChunk, Arrive, AdmitAll, BuddyLayout.Valid, FreshPids, Messages;
    ghost var k, s, b := manager.memory.k, manager.memory.Chunks(), manager.books;
    left, messages, result := AdmitWaiting(manager, waiting, pids);
    next := i;
    if i < |list| && clk == list[i].arrival {
      ghost var first, sent := result, messages;
      var more;
      ghost var second;
      WaitersCounted(k, s, waiting);
      left, more, second := TakeArrival(manager, pids, |messages|, list[i], left);
      MessagesOnward(pids, first.admitted, second.admitted);
      assert pids[|sent|..][|more|..] == pids[|sent| + |more|..];
      if second.admitted != [] {
        OneMoreBooked(k, s, b, waiting, list[i], pids);
      } else {
        assert first.admitted + second.admitted == first.admitted;
      }
      result := Admitted(second.layout, second.waiting, first.admitted + second.admitted);
      messages := messages + more;
      next := i + 1;
    }
  }

  // ---------- exits ----------

  /** Who holds what, and what is live: blocks, and their values. */
  datatype Ledger = Ledger(
    owners: map<int, Block>,
    leaked: set<Block>,
    books: Books,
    blocks: set<Block>,
    chunks: set<Chunk>)

  ghost function LedgerOf(manager: Manager): Ledger
    reads manager, manager.memory, manager.memory.nodes
  {
    Ledger(manager.owners, manager.leaked, manager.books, manager.memory.LiveBlocks(), Live(manager.memory.Chunks()))
  }

  ghost function ValuesOf(bs: set<Block>): (val: map<Block, Chunk>)
    reads bs
    ensures val.Keys == bs
  {
    map b | b in bs :: b.Value()
  }

  ghost function Image(bs: set<Block>, val: map<Block, Chunk>): set<Chunk>
    requires bs <= val.Keys
  {
    set b | b in bs :: val[b]
  }

  /** What is left when the blocks are freed. */
  ghost function Freed(h: Ledger, bs: set<Block>, val: map<Block, Chunk>): Ledger
    requires bs <= val.Keys
  {
    Ledger(map p | p in h.owners && h.owners[p] !in bs :: h.owners[p], h.leaked - bs,
             Strike(h.books, Image(bs, val)), h.blocks - bs, h.chunks - Image(bs, val))
  }

  lemma FreedNothing(h: Ledger, val: map<Block, Chunk>)
    ensures Freed(h, {}, val) == h
  {
    var f := Freed(h, {}, val);
    assert Image({}, val) == {};
    assert f.owners == h.owners && f.books.owners == h.books.owners;
  }

  lemma FreedMore(h: Ledger, bs: set<Block>, b: Block, val: map<Block, Chunk>)
    requires bs + {b} <= val.Keys
    ensures Freed(Freed(h, bs, val), {b}, val) == Freed(h, bs + {b}, val)
  {
    ImagePlus(bs, b, val);
    var f, g := Freed(Freed(h, bs, val), {b}, val), Freed(h, bs + {b}, val);
    assert Image({b}, val) == {val[b]};
    assert f.owners == g.owners && f.books.owners == g.books.owners;
  }

  lemma ImagePlus(bs: set<Block>, b: Block, val: map<Block, Chunk>)
    requires bs + {b} <= val.Keys
    ensures Image(bs + {b}, val) == Image(bs, val) + {val[b]}
  {
    forall c
      ensures c in Image(bs + {b}, val) <==> c in Image(bs, val) + {val[b]}
    {
      assert b in bs + {b};
    }
  }

  /** The blocks that the map has for the first n of the exited, apart from the clock and the scheduler. */
  ghost function Named(contents: map<int, ProcessMemory>, exited: seq<int>, n: nat, clkPid: int,
          schPid: int): set<Block>
    requires n <= |exited|
  {
    set p | p in exited[..n] && p in contents && p != clkPid && p != schPid :: contents[p].memory
  }

  /** No process is reported twice; different processes have different blocks, and these are live. */
  ghost predicate Accountable(contents: map<int, ProcessMemory>, live: set<Block>, exited: seq<int>,
          clkPid: int, schPid: int) {
    && (forall i, j :: 0 <= i < j < |exited| ==> exited[i] != exited[j])
    && Named(contents, exited, |exited|, clkPid, schPid) <= live
    && forall p, q :: p in exited && q in exited && p != q && p in contents && q in contents ==>
         p in {clkPid, schPid} || q in {clkPid, schPid} || contents[p].memory != contents[q].memory
  }

  lemma NobodyNamed(contents: map<int, ProcessMemory>, exited: seq<int>, clkPid: int, schPid: int)
    ensures Named(contents, exited, 0, clkPid, schPid) == {}
  {
  }

  lemma NamedAre(contents: map<int, ProcessMemory>, exited: seq<int>, clkPid: int, schPid: int)
    ensures forall b :: b in Named(contents, exited, |exited|, clkPid, schPid) <==>
              !forall p :: p in exited && p in contents && contents[p].memory == b ==> p == clkPid || p == schPid
  {
    assert exited[..|exited|] == exited;
  }

  lemma OneMoreNamed(contents: map<int, ProcessMemory>, exited: seq<int>, n: nat, clkPid: int, schPid: int)
    requires n < |exited|
    ensures var before := Named(contents, exited, n, clkPid, schPid);
            var after := Named(contents, exited, n + 1, clkPid, schPid);
            after == if exited[n] in contents && exited[n] != clkPid && exited[n] != schPid
                     then before + {contents[exited[n]].memory} else before
  {
    assert exited[..n + 1] == exited[..n] + [exited[n]];
    var p, after := exited[n], Named(contents, exited, n + 1, clkPid, schPid);
    if p in contents && p != clkPid && p != schPid {
      assert p in exited[..n + 1];
      assert contents[p].memory in after;
    }
  }

  lemma NotYetNamed(contents: map<int, ProcessMemory>, live: set<Block>, exited: seq<int>, n: nat,
          clkPid: int, schPid: int)
    requires Accountable(contents, live, exited, clkPid, schPid) && n < |exited|
    requires exited[n] in contents && exited[n] != clkPid && exited[n] != schPid
    ensures contents[exited[n]].memory in live - Named(contents, exited, n, clkPid, schPid)
  {
    var b := contents[exited[n]].memory;
    assert exited[..|exited|] == exited;
    assert b in Named(contents, exited, |exited|, clkPid, schPid);
    forall p | p in exited[..n] && p in contents && p != clkPid && p != schPid
      ensures contents[p].memory != b
    {
      var i :| 0 <= i < n && exited[i] == p;
      assert exited[i] != exited[n];
    }
  }

  /** val has the value of each live block. */
  ghost predicate Valued(manager: Manager, val: map<Block, Chunk>)
    reads manager, manager.memory, manager.memory.nodes
  {
    forall b :: b in manager.memory.LiveBlocks() ==> b in val && val[b] == b.Value()
  }

  /** The body of the loop of handle_child_exit. */
  method Reap(manager: Manager, pid: int, clkPid: int, schPid: int, ghost val: map<Block, Chunk>)
    requires manager.Valid({}) && Valued(manager, val)
    requires pid in manager.memoryMap.contents && pid != clkPid && pid != schPid ==>
               manager.memoryMap.contents[pid].memory in manager.memory.LiveBlocks()
    modifies manager`owners, manager`leaked, manager`books, manager.memory`nodes, manager.memory.nodes
    ensures manager.Valid({}) && Valued(manager, val)
    ensures LedgerOf(manager) ==
            if pid in manager.memoryMap.contents && pid != clkPid && pid != schPid
            then Freed(old(LedgerOf(manager)), {manager.memoryMap.contents[pid].memory}, val)
            else old(LedgerOf(manager))
    ensures fresh(set b | b in manager.memory.nodes && b !in old(manager.memory.nodes))
  {
    hide Manager.Recorded, Manager.Balanced, Memory.Linked, BuddyLayout.Valid, Live, Strike, Freed;
    if pid != clkPid && pid != schPid {
      ghost var h := LedgerOf(manager);
      var found := manager.DeallocateProcessMemory(pid);
      if found {
        FreedOne(h, manager.memoryMap.contents[pid].memory, val);
      }
    }
  }

  lemma FreedOne(h: Ledger, b: Block, val: map<Block, Chunk>)
    requires b in val
    ensures Freed(h, {b}, val)
         == Ledger(OtherOwners(h.owners, b), h.leaked - {b}, Strike(h.books, {val[b]}), h.blocks - {b},
                 h.chunks - {val[b]})
  {
    assert Image({b}, val) == {val[b]};
    assert Freed(h, {b}, val).owners == OtherOwners(h.owners, b);
  }

  lemma FreedBlocks(h: Ledger, bs: set<Block>, val: map<Block, Chunk>)
    requires bs <= val.Keys
    ensures Freed(h, bs, val).blocks == h.blocks - bs
  {
  }

  /** One more exit. */
  lemma NextExit(h: Ledger, contents: map<int, ProcessMemory>, exited: seq<int>, n: nat, clkPid: int, schPid: int,
                 val: map<Block, Chunk>)
    requires Accountable(contents, h.blocks, exited, clkPid, schPid) && n < |exited| && h.blocks <= val.Keys
    requires Named(contents, exited, n, clkPid, schPid) <= h.blocks
    ensures var p, before := exited[n], Named(contents, exited, n, clkPid, schPid);
            var after := Named(contents, exited, n + 1, clkPid, schPid);
            if p in contents && p != clkPid && p != schPid then
              && after == before + {contents[p].memory} && contents[p].memory in h.blocks - before
              && Freed(Freed(h, before, val), {contents[p].memory}, val) == Freed(h, after, val)
            else after == before
    ensures Named(contents, exited, n + 1, clkPid, schPid) <= h.blocks
  {
    OneMoreNamed(contents, exited, n, clkPid, schPid);
    var p := exited[n];
    if p in contents && p != clkPid && p != schPid {
      NotYetNamed(contents, h.blocks, exited, n, clkPid, schPid);
      FreedMore(h, Named(contents, exited, n, clkPid, schPid), contents[p].memory, val);
    }
  }

  /**
    handle_child_exit: the blocks that the map has for the exited processes are freed, exactly these,
    and the books no longer show them. For owners these are their own blocks.
   */
  method HandleChildExit(manager: Manager, exited: seq<int>, clkPid: int, schPid: int)
    requires manager.Valid({})
    requires Accountable(manager.memoryMap.contents, manager.memory.LiveBlocks(), exited, clkPid, schPid)
    modifies manager`owners, manager`leaked, manager`books, manager.memory`nodes, manager.memory.nodes
    ensures manager.Valid({})
    ensures Named(manager.memoryMap.contents, exited, |exited|, clkPid, schPid) <= old(manager.memory.LiveBlocks())
    ensures LedgerOf(manager) == Freed(old(LedgerOf(manager)),
                                       Named(manager.memoryMap.contents, exited, |exited|, clkPid, schPid),
                                       old(ValuesOf(manager.memory.LiveBlocks())))
    ensures var contents := manager.memoryMap.contents;
            forall b :: b in manager.memory.LiveBlocks() <==>
              && b in old(manager.memory.LiveBlocks())
              && forall p :: p in exited && p in contents && contents[p].memory == b ==> p == clkPid || p == schPid
    ensures fresh(set b | b in manager.memory.nodes && b !in old(manager.memory.nodes))
  {
    hide Manager.Recorded, Manager.Balanced, Memory.Linked, Memory.Chunks, BuddyLayout.Valid;
    hide Live, Freed, Accountable, Named;
    ghost var h, val := LedgerOf(manager), ValuesOf(manager.memory.LiveBlocks());
    ghost var contents := manager.memoryMap.contents;
    NobodyNamed(contents, exited, clkPid, schPid);
    FreedNothing(h, val);
    var i := 0;
    while i < |exited|
      invariant 0 <= i <= |exited| && manager.Valid({}) && Valued(manager, val)
      invariant Named(contents, exited, i, clkPid, schPid) <= h.blocks
      invariant LedgerOf(manager) == Freed(h, Named(contents, exited, i, clkPid, schPid), val)
      invariant fresh(set b | b in manager.memory.nodes && b !in old(manager.memory.nodes))
    {
      NextExit(h, contents, exited, i, clkPid, schPid, val);
      FreedBlocks(h, Named(contents, exited, i, clkPid, schPid), val);
      Reap(manager, exited[i], clkPid, schPid, val);
      i := i + 1;
    }
    FreedBlocks(h, Named(contents, exited, i, clkPid, schPid), val);
    NamedAre(contents, exited, clkPid, schPid);
  }

  // ---------- the loop of create_processes ----------

  /** The objects show the state of the run. */
  ghost predicate Mirrors(manager: Manager, waiting: seq<Process>, g: State)
    reads manager, manager.memory, manager.memory.nodes, manager.memoryMap, manager.memoryMap.buckets
    reads MemoryManager.Holdings(manager.owners), manager.leaked
  {
    && manager.Valid({}) && Good(manager.memory.k, g)
    && g.layout == manager.memory.Chunks() && g.books == manager.books && g.waiting == waiting
  }

  /** Of processes that may exit, the map names just the blocks that the books say they own. */
  lemma {:induction false} ExitsAccountable(manager: Manager, g: State, exited: seq<int>, clkPid: int, schPid: int)
    requires Mirrors(manager, g.waiting, g) && MayExit(g, exited)
    requires clkPid !in g.running && schPid !in g.running
    ensures Accountable(manager.memoryMap.contents, manager.memory.LiveBlocks(), exited, clkPid, schPid)
    ensures var named := Named(manager.memoryMap.contents, exited, |exited|, clkPid, schPid);
            named <= manager.memory.LiveBlocks()
            && Image(named, ValuesOf(manager.memory.LiveBlocks())) == OwnedBy(g.books, exited)
  {
    var contents, live := manager.memoryMap.contents, manager.memory.LiveBlocks();
    assert exited[..|exited|] == exited;
    forall p | p in exited
      ensures p != clkPid && p != schPid && (p in contents <==> p in manager.owners)
      ensures p in contents ==> contents[p].memory == manager.owners[p] && contents[p].memory in live
    {
      var i :| 0 <= i < |exited| && exited[i] == p;
      manager.memoryMap.KeysAreStored(p);
      if p in manager.owners {
        assert manager.owners[p] in MemoryManager.Holdings(manager.owners);
      }
    }
    var named := Named(contents, exited, |exited|, clkPid, schPid);
    forall c
      ensures c in Image(named, ValuesOf(live)) <==> c in OwnedBy(g.books, exited)
    {
      if c in OwnedBy(g.books, exited) {
        var p :| p in exited && p in g.books.owners && g.books.owners[p] == c;
        assert contents[p].memory in named;
      }
    }
  }

  /** handle_child_exit performs the exits of the run. */
  method ExitProcesses(manager: Manager, exited: seq<int>, clkPid: int, schPid: int, ghost g: State)
    requires Mirrors(manager, g.waiting, g) && MayExit(g, exited)
    requires clkPid !in g.running && schPid !in g.running
    modifies manager`owners, manager`leaked, manager`books, manager.memory`nodes, manager.memory.nodes
    ensures Mirrors(manager, g.waiting, ExitedAll(manager.memory.k, g, exited))
    ensures fresh(set b | b in manager.memory.nodes && b !in old(manager.memory.nodes))
  {
    hide Manager.Recorded, Manager.Balanced, Memory.Linked, Memory.Chunks, Strike, Live;
    hide MayExit, Accountable, Named, OwnedBy, Kept, Asking;
    ExitsAccountable(manager, g, exited, clkPid, schPid);
    ExitsDetermined(manager.memory.k, g, exited);
    HandleChildExit(manager, exited, clkPid, schPid);
  }

  lemma OwnersRun(manager: Manager, g: State)
    requires Mirrors(manager, g.waiting, g)
    ensures manager.owners.Keys <= g.running.Keys
  {
    forall p | p in manager.owners
      ensures p in g.running
    {
      assert p in g.books.owners;
    }
  }

  lemma FewerTaken(pids: seq<int>, taken: set<int>, fewer: set<int>)
    requires FreshPids(pids, taken) && fewer <= taken
    ensures FreshPids(pids, fewer)
  {
  }

  /** The j-th message is about the process ps[j], which was forked with the pid pids[j], and says that it is new. */
  ghost predicate Tells(messages: seq<Pcb>, pids: seq<int>, ps: seq<Process>) {
    && |messages| == |pids| == |ps|
    && forall j :: 0 <= j < |messages| ==>
         && messages[j].pid == pids[j] && messages[j].process == ps[j] && messages[j].remaining == ps[j].runtime
         && messages[j].startTime == -1 && messages[j].waitTime == 0
  }

  lemma MessagesTell(pids: seq<int>, ps: seq<Process>)
    requires |ps| <= |pids|
    ensures Tells(Messages(pids, ps), pids[..|ps|], ps)
  {
  }

  lemma TellsBoth(a: seq<Pcb>, b: seq<Pcb>, pids: seq<int>, more: seq<int>, ps: seq<Process>, qs: seq<Process>)
    requires Tells(a, pids, ps) && Tells(b, more, qs)
    ensures Tells(a + b, pids + more, ps + qs)
  {
  }

  /** y is x after the turn, and the messages are about the processes forked in it, with the pids of the turn. */
  ghost predicate Turned(k: nat, x: Turning, list: seq<Process>, e: Turn, y: Turning, messages: seq<Pcb>) {
    && Good(k, x.state) && TurnPossible(k, x, e) && Asking(list)
    && y == TurnOnce(k, x, list, e)
    && |messages| <= |e.pids| && y.state.named == x.state.named + e.pids[..|messages|]
    && |y.state.forked| == |x.state.forked| + |messages| && x.state.forked <= y.state.forked
    && Tells(messages, e.pids[..|messages|], y.state.forked[|x.state.forked|..])
  }

  /** What Iterate does to the objects is what a turn does after its exits. */
  lemma {:induction false} TurnIs(k: nat, x: Turning, list: seq<Process>, e: Turn, r: Admitted, messages: seq<Pcb>)
    requires Good(k, x.state) && TurnPossible(k, x, e) && Asking(list)
    requires var h := ExitedAll(k, x.state, e.exited); r == Iteration(k, h.layout, h.waiting, Due(list, x.next, e.clk))
    requires |r.admitted| <= |e.pids| && messages == Messages(e.pids, r.admitted)
    ensures var h := ExitedAll(k, x.state, e.exited);
            && InTurn(k, h.layout, r.admitted) && |h.books.keys| > 0
            && var y := TurnOnce(k, x, list, e);
            && y.next == x.next + |ArrivalOf(Due(list, x.next, e.clk))|
            && y.state.layout == r.layout && y.state.waiting == r.waiting
            && y.state.books == AssignAll(k, h.layout, h.books, r.admitted, e.pids)
            && Turned(k, x, list, e, y, messages)
  {
    var h := ExitedAll(k, x.state, e.exited);
    ExitsForkNobody(k, x.state, e.exited);
    IterationInTurn(k, h.layout, h.waiting, Due(list, x.next, e.clk));
    EnoughPids(k, x, e, Due(list, x.next, e.clk));
    MessagesTell(e.pids, r.admitted);
    assert (x.state.forked + r.admitted)[|x.state.forked|..] == r.admitted;
  }

  /** One turn of the loop, with the exits that the handler reports before it. */
  method OneTurn(manager: Manager, list: seq<Process>, waiting: seq<Process>, i: nat, e: Turn, clkPid: int, schPid: int,
                 ghost x: Turning)
    returns (next: nat, left: seq<Process>, messages: seq<Pcb>, ghost y: Turning)
    requires Mirrors(manager, waiting, x.state) && x.next == i
    requires Asking(list) && TurnPossible(manager.memory.k, x, e)
    requires clkPid !in x.state.running && schPid !in x.state.running
    modifies manager`owners, manager`leaked, manager`books, manager.memoryMap, manager.memoryMap.buckets
    modifies manager.memory`nodes, manager.memory.nodes
    ensures Turned(manager.memory.k, x, list, e, y, messages) && Mirrors(manager, left, y.state) && y.next == next
    ensures fresh(set b | b in manager.memory.nodes && b !in old(manager.memory.nodes))
  {
    hide Manager.Recorded, Manager.Balanced, Memory.Linked, Memory.Chunks, Live, BuddyLayout.Valid;
    hide TurnOnce, Turned, Forked, Kept, InTurn, Assign;
    hide AssignAll, Iteration, FreshPids, Messages, MayExit, Table.Valid;
    ghost var k := manager.memory.k;
    ghost var h := ExitedAll(k, x.state, e.exited);
    ExitProcesses(manager, e.exited, clkPid, schPid, x.state);
    OwnersRun(manager, h);
    FewerTaken(e.pids, h.running.Keys, manager.owners.Keys);
    ghost var result;
    next, left, messages, result := Iterate(manager, list, i, e.clk, waiting, e.pids);
    TurnIs(k, x, list, e, result, messages);
    y := TurnOnce(k, x, list, e);
  }

  /** Every entry of the list was taken and nobody waits: the loop is over. */
  predicate Over(x: Turning, list: seq<Process>) {
    x.next >= |list| && x.state.waiting == []
  }

  /**
    As long as the loop goes on, its turns are possible, and neither the clock nor the scheduler is among those
    who run.
   */
  ghost predicate Feasible(k: nat, x: Turning, list: seq<Process>, turns: seq<Turn>, clkPid: int, schPid: int)
    requires Good(k, x.state) && Asking(list)
    decreases |turns|
  {
    turns == [] || Over(x, list) ||
    (&& TurnPossible(k, x, turns[0])
     && clkPid !in x.state.running && schPid !in x.state.running
     && Feasible(k, TurnOnce(k, x, list, turns[0]), list, turns[1..], clkPid, schPid))
  }

  /** The state is that of the run, whose arrivals are the entries taken; the messages tell of those forked. */
  ghost predicate OnRun(k: nat, list: seq<Process>, run: seq<Event>, x: Turning, messages: seq<Pcb>) {
    && LegalRun(k, run) && AdmissionRuns.After(k, run) == x.state
    && x.next <= |list| && Arrived(run) == list[..x.next]
    && Tells(messages, x.state.named, x.state.forked)
  }

  lemma {:induction false} OnRunAtFirst(k: nat, list: seq<Process>)
    ensures OnRun(k, list, [], Turning(Start(k), 0), [])
  {
  }

  lemma {:induction false} OnRunStill(k: nat, list: seq<Process>, run: seq<Event>, x: Turning, messages: seq<Pcb>,
                                      e: Turn, y: Turning, more: seq<Pcb>)
    returns (longer: seq<Event>)
    requires OnRun(k, list, run, x, messages) && Turned(k, x, list, e, y, more)
    ensures OnRun(k, list, longer, y, messages + more)
  {
    hide TurnOnce, TurnPossible, Good, LegalRun, Arrived, Tells, Asking, ExitedAll, Forked, FreshPids, MayExit;
    longer := TurnIsRun(k, run, x, list, e);
    var forked, n := y.state.forked, |x.state.forked|;
    TellsBoth(messages, more, x.state.named, e.pids[..|more|], x.state.forked, forked[n..]);
    assert x.state.forked + forked[n..] == forked;
  }

  lemma {:induction false} NextTurn(k: nat, x: Turning, list: seq<Process>, turns: seq<Turn>, t: nat,
          clkPid: int, schPid: int)
    requires Good(k, x.state) && Asking(list) && t < |turns| && Feasible(k, x, list, turns[t..], clkPid, schPid)
    requires x.next < |list| || x.state.waiting != []
    ensures TurnPossible(k, x, turns[t]) && clkPid !in x.state.running && schPid !in x.state.running
    ensures Feasible(k, TurnOnce(k, x, list, turns[t]), list, turns[t + 1..], clkPid, schPid)
    ensures Played(k, x, list, turns[t..], clkPid, schPid)
         == Played(k, TurnOnce(k, x, list, turns[t]), list, turns[t + 1..], clkPid, schPid)
  {
    assert turns[t..][0] == turns[t] && turns[t..][1..] == turns[t + 1..];
  }

  /** All turns, one after the other, until the loop is over. */
  ghost function Played(k: nat, x: Turning, list: seq<Process>, turns: seq<Turn>, clkPid: int, schPid: int): Turning
    requires Good(k, x.state) && Asking(list) && Feasible(k, x, list, turns, clkPid, schPid)
    decreases |turns|
  {
    if turns == [] || Over(x, list) then x
    else Played(k, TurnOnce(k, x, list, turns[0]), list, turns[1..], clkPid, schPid)
  }

  /**
    The loop of create_processes, for as many turns as are given unless it is over before: the objects go
    through a run of the model, whose arrivals are the entries of the list taken. The messages tell of
    those forked, in order, each under the pid that fork returned for it. The announcement follows when
    the loop is over, and only then.
   */
  method CreateProcesses(manager: Manager, list: seq<Process>, turns: seq<Turn>, clkPid: int, schPid: int)
    returns (i: nat, left: seq<Process>, messages: seq<Pcb>, announced: bool, ghost run: seq<Event>)
    requires Mirrors(manager, [], Start(manager.memory.k)) && Asking(list)
    requires Feasible(manager.memory.k, Turning(Start(manager.memory.k), 0), list, turns, clkPid, schPid)
    modifies manager`owners, manager`leaked, manager`books, manager.memoryMap, manager.memoryMap.buckets
    modifies manager.memory`nodes, manager.memory.nodes
    ensures LegalRun(manager.memory.k, run) && Mirrors(manager, left, AdmissionRuns.After(manager.memory.k, run))
    ensures i == Taken(list, 0, Clocks(turns)) && Arrived(run) == list[..i]
    ensures Turning(AdmissionRuns.After(manager.memory.k, run), i)
         == Played(manager.memory.k, Turning(Start(manager.memory.k), 0), list, turns, clkPid, schPid)
    ensures announced <==> i == |list| && left == []
    ensures var g := AdmissionRuns.After(manager.memory.k, run);
            && |messages| == |g.forked| == |g.named|
            && forall j :: 0 <= j < |messages| ==>
                 && messages[j].pid == g.named[j] && messages[j].process == g.forked[j]
                 && messages[j].remaining == g.forked[j].runtime
                 && messages[j].startTime == -1 && messages[j].waitTime == 0
  {
    hide Manager.Recorded, Manager.Balanced, Memory.Linked, Memory.Chunks, Live, BuddyLayout.Valid;
    hide TurnOnce, OnRun, Arrived, Kept, TurnPossible, FreshPids, MayExit;
    hide Table.Valid, Feasible, Good, Asking, Taken, Clocks, Played;
    i, left, messages, run := 0, [], [], [];
    ghost var k := manager.memory.k;
    ghost var x := Turning(Start(k), 0);
    OnRunAtFirst(k, list);
    assert turns[0..] == turns;
    var t := 0;
    while (i < |list| || left != []) && t < |turns|
      invariant 0 <= t <= |turns| && Mirrors(manager, left, x.state) && x.next == i <= |list|
      invariant Taken(list, i, Clocks(turns[t..])) == Taken(list, 0, Clocks(turns))
      invariant OnRun(k, list, run, x, messages)
      invariant Feasible(k, x, list, turns[t..], clkPid, schPid)
      invariant Played(k, x, list, turns[t..], clkPid, schPid)
             == Played(k, Turning(Start(k), 0), list, turns, clkPid, schPid)
      invariant fresh(set b | b in manager.memory.nodes && b !in old(manager.memory.nodes))
      decreases |turns| - t
    {
      NextTurn(k, x, list, turns, t, clkPid, schPid);
      var more;
      ghost var y;
      i, left, more, y := OneTurn(manager, list, left, i, turns[t], clkPid, schPid, x);
      TurnedIs(k, x, list, turns[t], y, more);
      TakenNext(list, x.next, turns, t);
      run := OnRunStill(k, list, run, x, messages, turns[t], y, more);
      messages := messages + more;
      x := y;
      t := t + 1;
    }
    announced := !(i < |list| || left != []);
    OnRunMeans(k, list, run, x, messages);
    PlayedOut(k, x, list, turns, t, clkPid, schPid);
    if i == |list| {
      NobodyLeft(list, Clocks(turns[t..]));
    } else {
      assert turns[t..] == [];
      NoMoreTurns(list, i);
    }
  }

  lemma TurnedIs(k: nat, x: Turning, list: seq<Process>, e: Turn, y: Turning, messages: seq<Pcb>)
    requires Turned(k, x, list, e, y, messages)
    ensures Good(k, x.state) && TurnPossible(k, x, e) && Asking(list) && y == TurnOnce(k, x, list, e)
    ensures y.next == x.next + |ArrivalOf(Due(list, x.next, e.clk))|
  {
  }

  lemma OnRunMeans(k: nat, list: seq<Process>, run: seq<Event>, x: Turning, messages: seq<Pcb>)
    requires OnRun(k, list, run, x, messages)
    ensures LegalRun(k, run) && AdmissionRuns.After(k, run) == x.state
    ensures x.next <= |list| && Arrived(run) == list[..x.next]
    ensures |messages| == |x.state.forked| == |x.state.named|
    ensures forall j :: 0 <= j < |messages| ==>
              && messages[j].pid == x.state.named[j] && messages[j].process == x.state.forked[j]
              && messages[j].remaining == x.state.forked[j].runtime
              && messages[j].startTime == -1 && messages[j].waitTime == 0
  {
  }

  lemma {:induction false} PlayedOut(k: nat, x: Turning, list: seq<Process>, turns: seq<Turn>, t: nat,
          clkPid: int, schPid: int)
    requires Good(k, x.state) && Asking(list) && t <= |turns| && Feasible(k, x, list, turns[t..], clkPid, schPid)
    requires t == |turns| || Over(x, list)
    ensures Played(k, x, list, turns[t..], clkPid, schPid) == x
  {
  }
}
