/**
  The memory manager: the buddy allocator, and the map from pids to the blocks their processes hold.
 */
module MemoryManager {
  import opened Options
  import opened BuddyLayout
  import opened BuddyOperations
  import opened BuddyMemory
  import opened BlockBooks
  import HashMap

  datatype ProcessMemory = ProcessMemory(memory: Block, id: int)

  ghost function Holdings(m: map<int, Block>): set<Block> {
    set p | p in m :: m[p]
  }

  /** The owners other than that of the block. */
  ghost function OtherOwners(m: map<int, Block>, block: Block): map<int, Block> {
    map p | p in m && m[p] != block :: m[p]
  }

  lemma HoldingsPlus(m: map<int, Block>, p: int, b: Block)
    requires p !in m
    ensures Holdings(m[p := b]) == Holdings(m) + {b}
  {
    var n := m[p := b];
    forall x
      ensures x in Holdings(n) <==> x in Holdings(m) + {b}
    {
      if x in Holdings(m) {
        var k :| k in m && m[k] == x;
        assert n[k] == x;
      }
      assert n[p] == b;
    }
  }

  lemma HoldingsMinus(m: map<int, Block>, block: Block)
    ensures Holdings(OtherOwners(m, block)) == Holdings(m) - {block}
  {
    var n := OtherOwners(m, block);
    forall x
      ensures x in Holdings(n) <==> x in Holdings(m) - {block}
    {
      if x in Holdings(m) - {block} {
        var k :| k in m && m[k] == x;
        assert n[k] == x;
      }
    }
  }

  lemma LiveAfterRelease(k: nat, s: Layout, i: nat)
    requires BuddyLayout.Valid(k, s) && i < |s|
    ensures Live(Release(s, i)) == Live(s) - {s[i]}
  {
    if s[i].Free() {
      ReleaseFree(k, s, i);
    } else {
      ReleaseKeeps(k, s, i);
    }
  }

  class Manager {
    const memory: Memory
    const memoryMap: HashMap.Table<ProcessMemory>
    ghost var owners: map<int, Block>  // the blocks of the processes that hold memory, by pid
    ghost var leaked: set<Block>       // blocks whose holders could not be recorded
    ghost var books: Books             // the same as values

    /** Every owner is recorded in the map with its own block. */
    ghost predicate Recorded()
      reads this, memoryMap
    {
      && (forall pid :: pid in owners ==> pid in memoryMap.contents && memoryMap.contents[pid].memory == owners[pid])
      && (forall p, q :: p in owners && q in owners && p != q ==> owners[p] != owners[q])
    }

    /** Live blocks and holders correspond; pending blocks are allocated and not yet assigned. */
    ghost predicate Balanced(pending: set<Block>)
      reads this, memory, memory.nodes
    {
      && memory.LiveBlocks() == Holdings(owners) + leaked + pending
      && Holdings(owners) !! leaked && (Holdings(owners) + leaked) !! pending
    }

    /** The books say the same as the blocks. */
    static ghost predicate SameBooks(books: Books, owners: map<int, Block>, leaked: set<Block>)
      reads Holdings(owners), leaked
    {
      && books.owners.Keys == owners.Keys
      && (forall p :: p in owners ==> owners[p] in Holdings(owners) && books.owners[p] == owners[p].Value())
      && books.leaked == set b | b in leaked :: b.Value()
    }

    ghost predicate HoldersTied()
      reads this, Holdings(owners), leaked
    {
      SameBooks(books, owners, leaked)
    }

    /** The books say the same as the map and the blocks. */
    ghost predicate Tied()
      reads this, Holdings(owners), leaked, memoryMap.buckets
    {
      books.keys == memoryMap.Keys() && HoldersTied()
    }

    ghost predicate Valid(pending: set<Block>)
      reads this, memory, memory.nodes, memoryMap, memoryMap.buckets, Holdings(owners), leaked
    {
      memory.Valid() && memoryMap.Valid() && Recorded() && Balanced(pending) && Tied()
    }

    constructor (k: nat)
      ensures Valid({}) && owners == map[] && leaked == {} && books == Books(HashMap.NoKeys(100), map[], {})
      ensures memory.k == k && memory.Chunks() == Initial(k) && memoryMap.buckets.Length == 100
      ensures fresh(memory) && fresh(memory.nodes) && fresh(memoryMap) && fresh(memoryMap.buckets)
    {
      memory := new Memory(k);
      memoryMap := new HashMap.Table<ProcessMemory>(100);
      owners, leaked, books := map[], {}, Books(HashMap.NoKeys(100), map[], {});
    }

    method AllocateProcessMemory(size: nat) returns (block: Block?)
      requires Valid({}) && size >= 1
      modifies memory`nodes, memory.nodes
      ensures Valid(if block == null then {} else {block})
      ensures block == null <==> Allocate(old(memory.Chunks()), size).None?
      ensures block == null ==> memory.Chunks() == old(memory.Chunks())
      ensures block != null ==>
                && block.requested == size
                && memory.Chunks() == Allocate(old(memory.Chunks()), size).value.0
                && old(BestFit(memory.Chunks(), size)).Some?
                && block == old(memory.nodes)[old(BestFit(memory.Chunks(), size)).value]
                && block.Value() == memory.Chunks()[old(BestFit(memory.Chunks(), size)).value]
      ensures fresh(set b | b in memory.nodes && b !in old(memory.nodes))
    {
      hide Memory.Linked, BuddyLayout.Valid, BestFit, Recorded;
      block := memory.Grant(size);
    }

    method GetSmallestBlock(units: nat) returns (block: Block?)
      requires memory.Valid()
      ensures block == match BestFit(memory.Chunks(), units) case None => null case Some(i) => memory.nodes[i]
    {
      block := memory.GetSmallestBlockAvailable(units);
    }

    /**
      Records the block of a process. A pid that the map knew before is updated but reported as a
      failure; a pid that the map does not take leaves the block without a holder.
     */
    method AssignMemoryBlock(pid: int, id: int, block: Block?) returns (ok: bool)
      requires (if block == null then Valid({}) else Valid({block})) && pid !in owners
      modifies this`owners, this`leaked, this`books, memoryMap, memoryMap.buckets
      ensures Valid({}) && memory.Chunks() == old(memory.Chunks()) && memory.nodes == old(memory.nodes)
      ensures block == null ==> !ok && owners == old(owners) && leaked == old(leaked) && books == old(books)
      ensures block != null ==> books == Assign(old(books), pid, block.Value())
      ensures block != null ==>
                owners == if HashMap.Takes(old(books).keys, pid) then old(owners)[pid := block] else old(owners)
      ensures block != null ==>
                leaked == if HashMap.Takes(old(books).keys, pid) then old(leaked) else old(leaked) + {block}
      ensures ok <==> block != null && HashMap.Takes(old(books).keys, pid) && pid !in old(memoryMap.contents)
      ensures memoryMap.contents == if block != null && HashMap.Takes(old(books).keys, pid)
                                    then old(memoryMap.contents)[pid := ProcessMemory(block, id)]
                                    else old(memoryMap.contents)
    {
      hide Recorded, HoldersTied, Memory.Chunks, Memory.Linked;
      hide BuddyLayout.Valid, HashMap.Table.Valid, HashMap.Takes, HashMap.Table.Keys;
      if block == null {
        return false;
      }
      var r := PutEntry(pid, ProcessMemory(block, id));
      ok := r > 0;
      if r != -1 {
        Book(pid, block);
      } else {
        WriteOff(block);
      }
    }

    /** The call of hashmap_put. */
    method PutEntry(pid: int, entry: ProcessMemory) returns (r: int)
      requires memory.Valid() && memoryMap.Valid() && Recorded() && pid !in owners
      modifies memoryMap, memoryMap.buckets
      ensures memory.Valid() && memoryMap.Valid() && Recorded() && -1 <= r <= 1
      ensures memoryMap.Keys() == HashMap.Enter(old(memoryMap.Keys()), pid)
      ensures r != -1 <==> HashMap.Takes(old(memoryMap.Keys()), pid)
      ensures r == 1 <==> r != -1 && pid !in old(memoryMap.contents)
      ensures memoryMap.contents == if r != -1 then old(memoryMap.contents)[pid := entry] else old(memoryMap.contents)
    {
      r := memoryMap.Put(pid, entry);
    }

    /** The pending block has no holder that could give it back. */
    ghost method WriteOff(block: Block)
      requires Valid({block})
      modifies this`leaked, this`books
      ensures Valid({}) && leaked == old(leaked) + {block}
      ensures books == Books(old(books).keys, old(books).owners, old(books).leaked + {block.Value()})
    {
      leaked := leaked + {block};
      books := Books(books.keys, books.owners, books.leaked + {block.Value()});
    }

    /** The pending block now has a holder. */
    ghost method Book(pid: int, block: Block)
      requires memory.Valid() && memoryMap.Valid() && Recorded() && Balanced({block}) && HoldersTied() && pid !in owners
      requires pid in memoryMap.contents && memoryMap.contents[pid].memory == block
      modifies this`owners, this`books
      ensures Valid({}) && owners == old(owners)[pid := block]
      ensures books == Books(memoryMap.Keys(), old(books).owners[pid := block.Value()], old(books).leaked)
    {
      hide Memory.Chunks, Memory.Linked, BuddyLayout.Valid, HashMap.Table.Valid;
      owners := owners[pid := block];
      books := Books(memoryMap.Keys(), books.owners[pid := block.Value()], books.leaked);
      HoldingsPlus(old(owners), pid, block);
    }

    /**
      A process has exited: the block that the map has for its pid is freed, and whoever holds that
      block loses it. For an owner that is its own block. The entry in the map stays behind.
     */
    method DeallocateProcessMemory(pid: int) returns (found: bool)
      requires Valid({})
      requires pid in memoryMap.contents ==> memoryMap.contents[pid].memory in memory.nodes
      modifies this`owners, this`leaked, this`books, memory`nodes, memory.nodes
      ensures Valid({}) && (found <==> pid in memoryMap.contents)
      ensures !found ==> memory.Chunks() == old(memory.Chunks()) && memory.LiveBlocks() == old(memory.LiveBlocks())
      ensures !found ==> owners == old(owners) && leaked == old(leaked) && books == old(books)
      ensures found ==>
                var block := memoryMap.contents[pid].memory;
                && memory.LiveBlocks() == old(memory.LiveBlocks()) - {block}
                && Live(memory.Chunks()) == Live(old(memory.Chunks())) - {old(block.Value())}
                && owners == OtherOwners(old(owners), block) && leaked == old(leaked) - {block}
                && books == Strike(old(books), {old(block.Value())})
      ensures pid in old(owners) ==> found && memoryMap.contents[pid].memory == old(owners)[pid]
      ensures forall b :: b in memory.LiveBlocks() ==> b.Value() == old(b.Value())
      ensures forall b :: b in memory.nodes ==> b in old(memory.nodes)
    {
      hide Memory.Linked, BuddyLayout.Valid, Strike, SameBooks;
      var entry := memoryMap.Get(pid);
      if entry == None {
        return false;
      }
      var block := entry.value.memory;
      Forget(block);
      FreeBlock(block);
      return true;
    }

    /** Whoever holds the block is forgotten. */
    ghost method Forget(block: Block)
      requires Valid({}) && block in memory.nodes
      modifies this`owners, this`leaked, this`books
      ensures memory.Valid() && memoryMap.Valid() && Recorded() && Tied()
      ensures Balanced(if block in memory.LiveBlocks() then {block} else {})
      ensures owners == OtherOwners(old(owners), block) && leaked == old(leaked) - {block}
      ensures books == Strike(old(books), {block.Value()})
    {
      hide Memory.Chunks, Memory.Linked, BuddyLayout.Valid, HashMap.Table.Valid, Strike, SameBooks;
      OthersDiffer(block);
      StrikeSame(books, owners, leaked, block);
      BalanceMinus(memory.LiveBlocks(), owners, leaked, block);
      owners, leaked, books := OtherOwners(owners, block), leaked - {block}, Strike(books, {block.Value()});
    }

    /** No holder's block but the block itself has its value. */
    lemma OthersDiffer(block: Block)
      requires memory.Valid() && Balanced({}) && block in memory.nodes
      ensures forall b :: b in Holdings(owners) + leaked && b != block ==> b.Value() != block.Value()
    {
      forall b | b in Holdings(owners) + leaked && b != block
        ensures b.Value() != block.Value()
      {
        assert b in memory.LiveBlocks();
        memory.ValuesDiffer(b, block);
      }
    }

    static lemma StrikeSame(books: Books, owners: map<int, Block>, leaked: set<Block>, block: Block)
      requires SameBooks(books, owners, leaked)
      requires forall b :: b in Holdings(owners) + leaked && b != block ==> b.Value() != block.Value()
      ensures SameBooks(Strike(books, {block.Value()}), OtherOwners(owners, block), leaked - {block})
      ensures Strike(books, {block.Value()}).keys == books.keys
    {
      HoldingsMinus(owners, block);
      var d, others := Strike(books, {block.Value()}), OtherOwners(owners, block);
      forall p
        ensures p in d.owners <==> p in others
      {
        if p in owners {
          assert books.owners[p] == owners[p].Value();
        }
      }
      forall p | p in others
        ensures others[p] in Holdings(others) && d.owners[p] == others[p].Value()
      {
      }
    }

    /** What the removal of one holder leaves of the correspondence. */
    static lemma BalanceMinus(live: set<Block>, owners: map<int, Block>, leaked: set<Block>, block: Block)
      requires live == Holdings(owners) + leaked && Holdings(owners) !! leaked
      ensures var pending := if block in live then {block} else {};
              && live == Holdings(OtherOwners(owners, block)) + (leaked - {block}) + pending
              && Holdings(OtherOwners(owners, block)) !! leaked - {block}
              && (Holdings(OtherOwners(owners, block)) + (leaked - {block})) !! pending
    {
      HoldingsMinus(owners, block);
    }

    /** The block is freed; it was pending or free before. */
    method FreeBlock(block: Block)
      requires memory.Valid() && memoryMap.Valid() && Recorded() && Tied() && block in memory.nodes
      requires Balanced(if block in memory.LiveBlocks() then {block} else {})
      modifies memory`nodes, memory.nodes
      ensures Valid({})
      ensures memory.LiveBlocks() == old(memory.LiveBlocks()) - {block}
      ensures Live(memory.Chunks()) == Live(old(memory.Chunks())) - {old(block.Value())}
      ensures forall b :: b in memory.LiveBlocks() ==> b.Value() == old(b.Value())
      ensures forall b :: b in memory.nodes ==> b in old(memory.nodes)
    {
      ghost var i :| 0 <= i < |memory.nodes| && memory.nodes[i] == block;
      LiveAfterRelease(memory.k, memory.Chunks(), i);
      memory.Revoke(block, i);
    }
  }
}
