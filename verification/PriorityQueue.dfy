/**
  The binary heap in a growing array.
 */
module PriorityQueue {
  import opened HeapSpec
  import opened Options

  class Heap<T> {
    var size: nat
    var nodes: array<Option<PNode<T>>>  // nodes.Length is the field `capacity`

    ghost predicate Valid()
      reads this, nodes
    {
      && size <= nodes.Length && nodes.Length > 0
      && forall i :: 0 <= i < size ==> nodes[i].Some?
    }

    ghost function Value(): (s: Nodes<T>)
      requires Valid()
      reads this, nodes
      ensures |s| == size
    {
      seq(size, i requires 0 <= i < size && Valid() reads this, nodes => nodes[i].value)
    }

    constructor ()
      ensures Valid() && fresh(nodes) && Value() == []
    {
      size := 0;
      nodes := new Option<PNode<T>>[100](_ => None);
    }

    method SwapNodes(i: nat, j: nat)
      requires Valid() && i < size && j < size
      modifies nodes
      ensures Valid() && Value() == Swap(old(Value()), i, j)
    {
      nodes[i], nodes[j] := nodes[j], nodes[i];
      assert Value() == Swap(old(Value()), i, j);
    }

    /** The loop with which pq_enqueue and pq_change_priority move a node up. */
    method MoveUp(index: nat)
      requires Valid() && index < size
      modifies nodes
      ensures Valid() && Value() == SiftUp(old(Value()), index)
    {
      var i: nat := index;
      while i > 0
        invariant Valid() && i < size
        invariant SiftUp(Value(), i) == SiftUp(old(Value()), index)
      {
        var p := (i - 1) / 2;
        if nodes[i].value.priority > nodes[p].value.priority {
          SwapNodes(i, p);
          i := p;
        } else {
          break;
        }
      }
    }

    method HeapifyAt(parent: nat)
      requires Valid() && parent < size
      modifies nodes
      ensures Valid() && Value() == Heapify(old(Value()), parent)
      decreases size - parent
    {
      var smallest := parent;
      var left, right := 2 * parent + 1, 2 * parent + 2;
      if left < size && nodes[left].value.priority > nodes[smallest].value.priority {
        smallest := left;
      }
      if right < size && nodes[right].value.priority > nodes[smallest].value.priority {
        smallest := right;
      }
      assert smallest == Largest(Value(), parent);
      if smallest != parent {
        SwapNodes(parent, smallest);
        HeapifyAt(smallest);
      }
    }

    /** Doubling the array with realloc. */
    method Grow()
      requires Valid()
      modifies this`nodes
      ensures Valid() && fresh(nodes) && nodes.Length == 2 * old(nodes.Length) && Value() == old(Value())
    {
      var bigger := new Option<PNode<T>>[2 * nodes.Length](_ => None);
      for i := 0 to size
        modifies bigger
        invariant forall j :: 0 <= j < i ==> bigger[j] == nodes[j]
      {
        bigger[i] := nodes[i];
      }
      nodes := bigger;
      assert Value() == old(Value());
    }

    method Append(node: PNode<T>)
      requires Valid() && size < nodes.Length
      modifies this`size, nodes
      ensures Valid() && Value() == old(Value()) + [node]
    {
      nodes[size] := Some(node);
      size := size + 1;
      assert Value() == old(Value()) + [node];
    }

    method EnqueueItem(item: T, priority: int)
      requires Valid()
      modifies this, nodes
      ensures Valid() && (nodes == old(nodes) || fresh(nodes))
      ensures Value() == Enqueue(old(Value()), item, priority)
    {
      if size == nodes.Length {
        Grow();
      }
      Append(PNode(item, -priority));
      MoveUp(size - 1);
    }

    method DropLast()
      requires Valid() && size > 0
      modifies this`size, nodes
      ensures Valid() && Value() == old(Value())[..old(size) - 1]
    {
      nodes[size - 1] := None;
      size := size - 1;
      assert Value() == old(Value())[..old(size) - 1];
    }

    method DequeueItem() returns (front: Option<T>)
      requires Valid()
      modifies this`size, nodes
      ensures Valid()
      ensures old(Value()) == [] ==> front == None && Value() == []
      ensures old(Value()) != [] ==> front == Some(old(Value())[0].item) && Value() == Dequeue(old(Value()))
    {
      if size == 0 {
        return None;
      }
      front := Some(nodes[0].value.item);
      SwapNodes(0, size - 1);
      DropLast();
      if size != 0 {
        HeapifyAt(0);
      }
    }

    method Front() returns (front: Option<T>)
      requires Valid()
      ensures front == if Value() == [] then None else Some(Value()[0].item)
    {
      if size == 0 {
        return None;
      }
      return Some(nodes[0].value.item);
    }

    method SetPriority(index: nat, priority: int)
      requires Valid() && index < size
      modifies nodes
      ensures Valid() && Value() == old(Value())[index := old(Value())[index].(priority := priority)]
    {
      nodes[index] := Some(nodes[index].value.(priority := priority));
      assert Value() == old(Value())[index := old(Value())[index].(priority := priority)];
    }

    method ChangePriorityAt(index: int, newPriority: int)
      requires Valid()
      modifies nodes
      ensures Valid() && Value() == ChangePriority(old(Value()), index, newPriority)
    {
      if index < 0 || index >= size {
        return;
      }
      var oldPriority := nodes[index].value.priority;
      SetPriority(index, -newPriority);
      if -newPriority > oldPriority {
        MoveUp(index);
      } else if -newPriority < oldPriority {
        HeapifyAt(index);
      }
    }
  }
}
