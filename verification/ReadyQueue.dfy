/**
  The ready queue behind one interface: a ring for round robin, a heap for the other algorithms.
 */
module ReadyQueue {
  import opened Options
  import opened HeapSpec
  import opened CircularQueue
  import PriorityQueue

  // ---------- the queue as a value ----------

  datatype Queue<+R> = RingQueue(ring: RingValue<R>) | HeapQueue(nodes: Nodes<R>)

  function Size<R>(q: Queue<R>): nat {
    match q
    case RingQueue(r) => |r.items|
    case HeapQueue(s) => |s|
  }

  function Front<R>(q: Queue<R>): Option<R> {
    match q
    case RingQueue(r) => if r.cursor < |r.items| then Some(r.items[r.cursor]) else None
    case HeapQueue(s) => if s == [] then None else Some(s[0].item)
  }

  function Put<R>(q: Queue<R>, x: R, priority: int): Queue<R> {
    match q
    case RingQueue(r) => RingQueue(Append(r, x))
    case HeapQueue(s) => HeapQueue(HeapSpec.Enqueue(s, x, priority))
  }

  /** Takes the front out for good. */
  function TakeOut<R>(q: Queue<R>): Queue<R> {
    match q
    case RingQueue(r) => if r.cursor < |r.items| then RingQueue(Remove(r)) else q
    case HeapQueue(s) => if s == [] then q else HeapQueue(Dequeue(s))
  }

  /** Dequeuing without removal, which only the ring supports: the front goes to the end. */
  function PassOver<R>(q: Queue<R>): Queue<R> {
    match q
    case RingQueue(r) => RingQueue(Rotate(r))
    case HeapQueue(s) => TakeOut(q)
  }

  function Reprioritise<R>(q: Queue<R>, index: int, priority: int): Queue<R> {
    match q
    case RingQueue(_) => q
    case HeapQueue(s) => HeapQueue(ChangePriority(s, index, priority))
  }

  // ---------- its contents ----------

  ghost predicate Ordered<R>(q: Queue<R>) {
    match q
    case RingQueue(r) => WellFormed(r)
    case HeapQueue(s) => HeapOrder(s)
  }

  /** Ring entries carry no priority: round robin enqueues with priority 0. */
  ghost function Keyed<R>(items: seq<R>): (s: Nodes<R>)
    ensures |s| == |items|
  {
    seq(|items|, i requires 0 <= i < |items| => PNode(items[i], 0))
  }

  ghost function Bag<R>(q: Queue<R>): multiset<PNode<R>> {
    match q
    case RingQueue(r) => multiset(Keyed(r.items))
    case HeapQueue(s) => multiset(s)
  }

  ghost function FrontNode<R>(q: Queue<R>): (n: PNode<R>)
    requires Ordered(q) && Size(q) > 0
  {
    match q
    case RingQueue(r) => PNode(r.items[r.cursor], 0)
    case HeapQueue(s) => s[0]
  }

  lemma FrontInBag<R>(q: Queue<R>)
    requires Ordered(q)
    ensures Size(q) == 0 ==> Front(q) == None && Bag(q) == multiset{}
    ensures Size(q) > 0 ==> Front(q) == Some(FrontNode(q).item) && FrontNode(q) in Bag(q)
  {
    match q
    case RingQueue(r) =>
      if r.items != [] {
        assert Keyed(r.items)[r.cursor] == FrontNode(q);
      }
    case HeapQueue(s) =>
  }

  lemma FrontIsLeast<R>(q: Queue<R>)
    requires Ordered(q) && Size(q) > 0
    ensures forall n :: n in Bag(q) ==> FrontNode(q).priority >= n.priority
  {
    match q
    case RingQueue(r) =>
    case HeapQueue(s) => FrontIsMinimal(s);
  }

  lemma PutKeeps<R>(q: Queue<R>, x: R, priority: int)
    requires Ordered(q) && (q.RingQueue? ==> priority == 0)
    ensures Ordered(Put(q, x, priority))
    ensures Bag(Put(q, x, priority)) == Bag(q) + multiset{PNode(x, -priority)}
    ensures q.RingQueue? && Size(q) > 0 ==> Front(Put(q, x, priority)) == Front(q)
  {
    match q
    case RingQueue(r) =>
      assert Keyed(r.items + [x]) == Keyed(r.items) + [PNode(x, 0)];
    case HeapQueue(s) => EnqueueKeeps(s, x, priority);
  }

  /** A newcomer comes to the front only of an empty queue or, in a heap, with a strictly lesser number. */
  lemma FrontAfterPut<R>(q: Queue<R>, x: R, priority: int)
    requires Ordered(q)
    ensures Front(Put(q, x, priority)) ==
            if Size(q) == 0 || (q.HeapQueue? && priority < -FrontNode(q).priority) then Some(x) else Front(q)
  {
    match q
    case RingQueue(r) =>
    case HeapQueue(s) => EnqueueFront(s, x, priority);
  }

  lemma TakeOutKeeps<R>(q: Queue<R>)
    requires Ordered(q) && Size(q) > 0
    ensures Ordered(TakeOut(q))
    ensures Bag(TakeOut(q)) == Bag(q) - multiset{FrontNode(q)}
  {
    match q
    case RingQueue(r) =>
      var k := Keyed(r.items);
      assert Keyed(r.items[..r.cursor] + r.items[r.cursor + 1..]) == k[..r.cursor] + k[r.cursor + 1..];
      assert k == k[..r.cursor] + [k[r.cursor]] + k[r.cursor + 1..];
    case HeapQueue(s) => DequeueKeeps(s);
  }

  lemma PassOverKeeps<R>(q: Queue<R>)
    requires Ordered(q) && q.RingQueue?
    ensures Ordered(PassOver(q)) && Bag(PassOver(q)) == Bag(q)
  {
  }

  /** Lowering the front's number leaves it in front. */
  lemma ReprioritiseFront<R>(q: Queue<R>, priority: int)
    requires Ordered(q) && q.HeapQueue? && Size(q) > 0 && -priority > FrontNode(q).priority
    ensures Ordered(Reprioritise(q, 0, priority))
    ensures Front(Reprioritise(q, 0, priority)) == Front(q)
    ensures Bag(Reprioritise(q, 0, priority))
         == Bag(q) - multiset{FrontNode(q)} + multiset{PNode(FrontNode(q).item, -priority)}
  {
    ChangePriorityKeeps(q.nodes, 0, priority);
  }

  // ---------- the objects ----------

  class IQueue<T> {
    var ring: Ring?<T>
    var heap: PriorityQueue.Heap?<T>

    ghost function Repr(): set<object>
      reads this, ring, heap
    {
      (if ring != null then {ring as object} + (set n | n in ring.spine) else {})
      + (if heap != null then {heap as object, heap.nodes} else {})
    }

    ghost predicate Valid()
      reads this, Repr()
    {
      && (ring == null <==> heap != null)
      && (ring != null ==> ring.Valid())
      && (heap != null ==> heap.Valid())
    }

    ghost function Value(): Queue<T>
      requires Valid()
      reads this, Repr()
    {
      if ring != null then RingQueue(ring.Value()) else HeapQueue(heap.Value())
    }

    constructor (circular: bool)
      ensures Valid() && fresh(Repr())
      ensures Value() == if circular then RingQueue(RingValue([], 0)) else HeapQueue([])
    {
      if circular {
        ring := new Ring<T>();
        heap := null;
      } else {
        ring := null;
        heap := new PriorityQueue.Heap<T>();
      }
    }

    method Enqueue(x: T, priority: int)
      requires Valid()
      modifies Repr()
      ensures Valid() && fresh(Repr() - old(Repr()))
      ensures Value() == Put(old(Value()), x, priority)
      ensures ring == old(ring) && heap == old(heap)
    {
      if ring != null {
        ring.Enqueue(x);
      } else {
        heap.EnqueueItem(x, priority);
      }
    }

    method DequeueFront(remove: bool) returns (front: Option<T>)
      requires Valid()
      modifies Repr()
      ensures Valid() && fresh(Repr() - old(Repr()))
      ensures front == Front(old(Value()))
      ensures Value() == if remove then TakeOut(old(Value())) else PassOver(old(Value()))
      ensures ring == old(ring) && heap == old(heap)
    {
      if ring != null {
        if remove {
          front := ring.DequeueAndRemove();
        } else {
          front := ring.Dequeue();
        }
      } else {
        front := heap.DequeueItem();
      }
    }

    method GetFront() returns (front: Option<T>)
      requires Valid()
      ensures front == Front(Value())
    {
      if ring != null {
        front := ring.Front();
      } else {
        front := heap.Front();
      }
    }

    method IsEmpty() returns (empty: bool)
      requires Valid()
      ensures empty <==> Size(Value()) == 0
    {
      if ring != null {
        empty := ring.size == 0;
      } else {
        empty := heap.size == 0;
      }
    }

    method ChangePriorityAt(index: int, priority: int)
      requires Valid()
      modifies Repr()
      ensures Valid() && fresh(Repr() - old(Repr()))
      ensures Value() == Reprioritise(old(Value()), index, priority)
      ensures ring == old(ring) && heap == old(heap)
    {
      if heap != null {
        heap.ChangePriorityAt(index, priority);
      }
    }
  }
}
