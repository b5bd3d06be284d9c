/**
  The buddy allocator on its doubly linked block list, updated in place.
 */
module BuddyMemory {
  import opened Dyadic
  import opened BuddyLayout
  import opened BuddyOperations
  import opened Options

  class Block {
    var size: nat
    var start: nat
    var requested: nat  // the field `allocated`: 0 when free
    var next: Block?
    var prev: Block?

    constructor (start: nat, size: nat, next: Block?, prev: Block?)
      ensures this.start == start && this.size == size && requested == 0
      ensures this.next == next && this.prev == prev
    {
      this.start, this.size, this.requested := start, size, 0;
      this.next, this.prev := next, prev;
    }

    function Value(): Chunk
      reads this
    {
      Chunk(start, size, requested)
    }
  }

  ghost predicate Distinct(nodes: seq<Block>) {
    forall i, j :: 0 <= i < j < |nodes| ==> nodes[i] != nodes[j]
  }

  ghost function NextOf(nodes: seq<Block>, i: nat): Block? {
    if i + 1 < |nodes| then nodes[i + 1] else null
  }

  ghost function PrevOf(nodes: seq<Block>, i: nat): Block? {
    if 0 < i <= |nodes| then nodes[i - 1] else null
  }

  class Memory {
    const k: nat
    const memory: Block  // the head of the list; it never changes
    ghost var nodes: seq<Block>

    ghost function Chunks(): (s: Layout)
      reads this, nodes
      ensures |s| == |nodes|
    {
      seq(|nodes|, i requires 0 <= i < |nodes| reads this, nodes => nodes[i].Value())
    }

    /** The list is well linked in both directions, from memory on, through the blocks of nodes. */
    ghost predicate Linked()
      reads this, nodes
    {
      && |nodes| >= 1 && nodes[0] == memory && Distinct(nodes)
      && (forall i {:trigger nodes[i].next} :: 0 <= i < |nodes| ==> nodes[i].next == NextOf(nodes, i))
      && (forall i {:trigger nodes[i].prev} :: 0 <= i < |nodes| ==> nodes[i].prev == PrevOf(nodes, i))
    }

    ghost predicate Valid()
      reads this, nodes
    {
      Linked() && BuddyLayout.Valid(k, Chunks())
    }

    ghost function LiveBlocks(): set<Block>
      reads this, nodes
    {
      set b | b in nodes && b.requested != 0
    }

    /** Blocks are told apart by where they start. */
    lemma ValuesDiffer(b: Block, c: Block)
      requires Valid() && b in nodes && c in nodes && b != c
      ensures b.Value() != c.Value()
    {
      var i :| 0 <= i < |nodes| && nodes[i] == b;
      var j :| 0 <= j < |nodes| && nodes[j] == c;
      assert Chunks()[i] == b.Value() && Chunks()[j] == c.Value();
      if b.Value() == c.Value() {
        DistinctStarts(Chunks(), i, j);
      }
    }

    constructor (k: nat)
      ensures Valid() && this.k == k && Chunks() == Initial(k) && LiveBlocks() == {}
      ensures fresh(nodes)
    {
      var b := new Block(0, Pow2(k), null, null);
      this.k := k;
      memory := b;
      nodes := [b];
      new;
      InitialValid(k);
      assert Chunks() == Initial(k);
    }

    method GetSmallestBlockAvailable(size: nat) returns (smallest: Block?)
      requires Linked()
      ensures match BestFit(Chunks(), size)
              case None => smallest == null
              case Some(i) => smallest == nodes[i]
    {
      var current: Block? := memory;
      smallest := null;
      ghost var i: nat := 0;
      ghost var s := Chunks();
      while current != null
        invariant 0 <= i <= |nodes|
        invariant current == if i < |nodes| then nodes[i] else null
        invariant match BestFit(s[..i], size)
                  case None => smallest == null
                  case Some(b) => smallest == nodes[b]
        decreases |nodes| - i
      {
        BestFitStep(s, i, size);
        if current.requested == 0 && current.size >= size && (smallest == null || current.size < smallest.size) {
          smallest := current;
        }
        current := current.next;
        i := i + 1;
      }
      assert s[..i] == s;
    }

    method SplitBlock(block: Block, ghost i: nat)
      requires Linked() && i < |nodes| && nodes[i] == block
      modifies this`nodes, nodes
      ensures Linked() && Chunks() == Split(old(Chunks()), i)
      ensures |nodes| == |old(nodes)| + 1 && fresh(nodes[i + 1]) && nodes[i + 1].requested == 0
      ensures nodes == old(nodes)[..i + 1] + [nodes[i + 1]] + old(nodes)[i + 1..]
      ensures block.requested == old(block.requested)
      ensures forall b :: b in old(nodes) && b != block ==> b.Value() == old(b.Value())
    {
      block.size := block.size / 2;
      var newBlock := new Block(block.start + block.size, block.size, block.next, block);
      InsertAfter(block, newBlock, i);
      forall x | 0 <= x < |nodes| && x != i + 1
        ensures Chunks()[x] == Split(old(Chunks()), i)[x]
      {
        assert nodes[x] == old(nodes)[if x <= i then x else x - 1];
      }
    }

    /** The relinking half of split_block. */
    method InsertAfter(block: Block, newBlock: Block, ghost i: nat)
      requires Linked() && i < |nodes| && nodes[i] == block && newBlock !in nodes
      requires newBlock.next == block.next && newBlock.prev == block
      modifies this`nodes, (set b | b in nodes)`next, (set b | b in nodes)`prev
      ensures Linked() && nodes == old(nodes)[..i + 1] + [newBlock] + old(nodes)[i + 1..]
    {
      block.next := newBlock;
      if newBlock.next != null {
        newBlock.next.prev := newBlock;
      }
      nodes := nodes[..i + 1] + [newBlock] + nodes[i + 1..];
      forall x | 0 <= x < |nodes| && x != i + 1
        ensures nodes[x].next == NextOf(nodes, x) && nodes[x].prev == PrevOf(nodes, x)
      {
        assert nodes[x] == old(nodes)[if x <= i then x else x - 1];
      }
    }

    /** Every block still on the list is an old one or a fresh free one; old ones other than `but` are unchanged. */
    twostate predicate OnlySplits(but: Block)
      reads this, nodes
    {
      && (forall b :: b in nodes ==> b in old(nodes) || (fresh(b) && b.requested == 0))
      && (forall b :: b in old(nodes) ==> b in nodes && (b != but ==> b.Value() == old(b.Value())))
    }

    method AllocateMemory(size: nat) returns (block: Block?)
      requires Valid() && size >= 1
      modifies this`nodes, nodes
      ensures Valid()
      ensures block == null ==> Allocate(old(Chunks()), size).None? && nodes == old(nodes) && Chunks() == old(Chunks())
      ensures block == null ==> forall b :: b in nodes ==> b.Value() == old(b.Value())
      ensures block != null ==>
                && Allocate(old(Chunks()), size).Some?
                && var (t, i) := Allocate(old(Chunks()), size).value;
                && Chunks() == t && i < |nodes| && nodes[i] == block
                && i < |old(nodes)| && block == old(nodes)[i] && old(block.requested) == 0
                && block.requested == size && OnlySplits(block)
    {
      block := GetSmallestBlockAvailable(size);
      if block == null {
        return;
      }
      ghost var s := Chunks();
      ghost var i := BestFit(s, size).value;
      EnoughRoom(s[i], size);
      Carve(block, size, i);
      AllocateKeepsValid(k, s, size);
    }

    /** The second half of allocate_memory: split the chosen block down and mark it. */
    method Carve(block: Block, size: nat, ghost i: nat)
      requires Linked() && i < |nodes| && nodes[i] == block && block.requested == 0
      requires size >= 1 && block.size >= 1 && CeilLog2(size) <= FloorLog2(block.size)
      modifies this`nodes, nodes
      ensures Linked() && i < |nodes| && nodes[i] == block && block.requested == size && OnlySplits(block)
      ensures var t := SplitTo(old(Chunks()), i, CeilLog2(size));
              Chunks() == t[i := t[i].(requested := size)]
    {
      SplitToOrder(block, CeilLog2(size), i);
      SetRequested(block, size, i);
    }

    /** What AllocateMemory means for the set of live blocks. */
    method Grant(size: nat) returns (block: Block?)
      requires Valid() && size >= 1
      modifies this`nodes, nodes
      ensures Valid() && fresh(set b | b in nodes && b !in old(nodes))
      ensures block == null ==> Allocate(old(Chunks()), size).None? && Chunks() == old(Chunks())
      ensures block == null ==> LiveBlocks() == old(LiveBlocks())
      ensures block != null ==>
                && Allocate(old(Chunks()), size).Some?
                && var (t, i) := Allocate(old(Chunks()), size).value;
                && Chunks() == t && i < |old(nodes)| && block == old(nodes)[i] && block.requested == size
                && i < |nodes| && nodes[i] == block
      ensures block != null ==> block !in old(LiveBlocks()) && LiveBlocks() == old(LiveBlocks()) + {block}
      ensures forall b :: b in old(LiveBlocks()) ==> b.Value() == old(b.Value())
    {
      ghost var before, live := nodes, LiveBlocks();
      block := AllocateMemory(size);
      if block != null {
        assert forall b :: b in nodes ==> b in before || b.requested == 0;
        assert forall b :: b in before && b != block ==> b in nodes && (b.requested != 0 <==> b in live);
        assert block in before && block in nodes && block !in live;
      }
    }

    /** The assignment to the field `allocated`. */
    method SetRequested(block: Block, r: nat, ghost i: nat)
      requires Linked() && i < |nodes| && nodes[i] == block
      modifies block`requested
      ensures Linked() && Chunks() == old(Chunks())[i := old(Chunks())[i].(requested := r)]
      ensures block.requested == r
    {
      block.requested := r;
    }

    /** The splitting loop of allocate_memory. */
    method SplitToOrder(block: Block, requiredOrder: nat, ghost i: nat)
      requires Linked() && i < |nodes| && nodes[i] == block && block.requested == 0
      requires block.size >= 1 && requiredOrder <= FloorLog2(block.size)
      modifies this`nodes, nodes
      ensures Linked() && Chunks() == SplitTo(old(Chunks()), i, requiredOrder)
      ensures i < |nodes| && nodes[i] == block && block.requested == 0 && OnlySplits(block)
    {
      while FloorLog2(block.size) != requiredOrder
        invariant Linked() && i < |nodes| && nodes[i] == block && block.requested == 0
        invariant block.size >= 1 && requiredOrder <= FloorLog2(block.size)
        invariant SplitTo(Chunks(), i, requiredOrder) == SplitTo(old(Chunks()), i, requiredOrder)
        invariant OnlySplits(block)
        invariant fresh(set b | b in nodes && b !in old(nodes))
        decreases block.size
      {
        ghost var before := nodes;
        SplitBlock(block, i);
        assert forall b :: b in nodes ==> b in before || b == nodes[i + 1];
      }
    }

    /** Old blocks only, with `but` free; the other live blocks are all still there and unchanged. */
    twostate predicate OnlyMerges(but: Block)
      reads this, nodes
    {
      && (forall b :: b in nodes ==> b in old(nodes) && b.requested == if b == but then 0 else old(b.requested))
      && (forall b :: b in old(nodes) && b != but && old(b.requested) != 0 ==>
            b in nodes && b.Value() == old(b.Value()))
    }

    /** Both branches of merge_block: the block takes over its right neighbour, which is freed. */
    method AbsorbNext(block: Block, ghost i: nat)
      requires Linked() && i + 1 < |nodes| && nodes[i] == block
      requires block.requested == 0 && nodes[i + 1].requested == 0
      modifies this`nodes, nodes
      ensures Linked() && Chunks() == MergeRight(old(Chunks()), i)
      ensures nodes == old(nodes)[..i + 1] + old(nodes)[i + 2..]
      ensures block.requested == 0 && OnlyMerges(block)
    {
      block.size := block.size * 2;
      UnlinkAfter(block, i);
      forall x | 0 <= x < |nodes|
        ensures Chunks()[x] == MergeRight(old(Chunks()), i)[x]
      {
        assert nodes[x] == old(nodes)[if x <= i then x else x + 1];
      }
    }

    /** The relinking half of merge_block. */
    method UnlinkAfter(block: Block, ghost i: nat)
      requires Linked() && i + 1 < |nodes| && nodes[i] == block
      modifies this`nodes, (set b | b in nodes)`next, (set b | b in nodes)`prev
      ensures Linked() && nodes == old(nodes)[..i + 1] + old(nodes)[i + 2..]
    {
      var buddy := block.next;
      block.next := buddy.next;
      if buddy.next != null {
        buddy.next.prev := block;
      }
      nodes := nodes[..i + 1] + nodes[i + 2..];
      assert forall x :: 0 <= x < |nodes| ==> nodes[x] == old(nodes)[if x <= i then x else x + 1];
    }

    method MergeBlock(block: Block, ghost i: nat)
      requires Linked() && i < |nodes| && nodes[i] == block && block.requested == 0
      modifies this`nodes, nodes
      ensures Linked() && Chunks() == Merge(old(Chunks()), i)
      ensures OnlyMerges(block)
      decreases |nodes|, 1
    {
      var buddyStart := Xor(block.start, block.size);
      if buddyStart > block.start {
        // The buddy is on the right.
        var buddy := block.next;
        if buddy != null && buddy.size == block.size && buddy.requested == 0 {
          AbsorbAndMerge(block, i);
        }
      } else {
        // The buddy is on the left.
        var buddy := block.prev;
        if buddy != null && buddy.size == block.size && buddy.requested == 0 {
          AbsorbAndMerge(buddy, i - 1);
        }
      }
    }

    /** The end of both branches of merge_block: the doubled block is merged in turn. */
    method AbsorbAndMerge(block: Block, ghost i: nat)
      requires Linked() && i + 1 < |nodes| && nodes[i] == block
      requires block.requested == 0 && nodes[i + 1].requested == 0
      modifies this`nodes, nodes
      ensures Linked() && Chunks() == Merge(MergeRight(old(Chunks()), i), i)
      ensures OnlyMerges(block)
      decreases |nodes|, 0
    {
      AbsorbNext(block, i);
      MergeBlock(block, i);
    }

    method DeallocateMemory(block: Block, ghost i: nat)
      requires Valid() && i < |nodes| && nodes[i] == block
      modifies this`nodes, nodes
      ensures Valid() && Chunks() == Release(old(Chunks()), i)
      ensures OnlyMerges(block)
    {
      if Chunks()[i].Free() {
        ReleaseFree(k, Chunks(), i);
      } else {
        ReleaseKeeps(k, Chunks(), i);
      }
      SetRequested(block, 0, i);
      MergeBlock(block, i);
    }

    /** What DeallocateMemory means for the set of live blocks. */
    method Revoke(block: Block, ghost i: nat)
      requires Valid() && i < |nodes| && nodes[i] == block
      modifies this`nodes, nodes
      ensures Valid() && Chunks() == Release(old(Chunks()), i)
      ensures LiveBlocks() == old(LiveBlocks()) - {block}
      ensures forall b :: b in LiveBlocks() ==> b.Value() == old(b.Value())
      ensures forall b :: b in nodes ==> b in old(nodes)
    {
      DeallocateMemory(block, i);
    }
  }
}
