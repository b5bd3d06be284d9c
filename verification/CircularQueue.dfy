/**
  The circular doubly linked queue: a ring of nodes with a cursor (head) and a fixed seam (tail).
  Rotating moves the head only, so a new node enters at the seam and not right behind the head.
 */
module CircularQueue {
  import opened Options

  // ---------- the ring as a value ----------

  /** The objects from the node after the tail round to the tail, and the position of the head. */
  datatype RingValue<+R> = RingValue(items: seq<R>, cursor: nat)

  ghost predicate WellFormed<R>(r: RingValue<R>) {
    r.cursor < |r.items| || (r.items == [] && r.cursor == 0)
  }

  function Append<R>(r: RingValue<R>, x: R): RingValue<R> {
    RingValue(r.items + [x], r.cursor)
  }

  function Rotate<R>(r: RingValue<R>): RingValue<R> {
    if r.items == [] then r else RingValue(r.items, if r.cursor + 1 == |r.items| then 0 else r.cursor + 1)
  }

  function Remove<R>(r: RingValue<R>): RingValue<R>
    requires r.cursor < |r.items|
  {
    RingValue(r.items[..r.cursor] + r.items[r.cursor + 1..], if r.cursor == |r.items| - 1 then 0 else r.cursor)
  }

  /** The order in which the ring would be served: from the head on, all the way round. */
  ghost function View<R>(r: RingValue<R>): (v: seq<R>)
    requires WellFormed(r)
    ensures |v| == |r.items|
  {
    r.items[r.cursor..] + r.items[..r.cursor]
  }

  /** A new object joins at the seam: behind those between head and tail, ahead of the others. */
  lemma AppendView<R>(r: RingValue<R>, x: R)
    requires WellFormed(r)
    ensures WellFormed(Append(r, x))
    ensures View(Append(r, x)) == r.items[r.cursor..] + [x] + r.items[..r.cursor]
  {
    assert (r.items + [x])[r.cursor..] == r.items[r.cursor..] + [x];
    assert (r.items + [x])[..r.cursor] == r.items[..r.cursor];
  }

  lemma RotateView<R>(r: RingValue<R>)
    requires WellFormed(r) && r.items != []
    ensures WellFormed(Rotate(r)) && View(Rotate(r)) == View(r)[1..] + [View(r)[0]]
  {
    if r.cursor + 1 == |r.items| {
      assert View(Rotate(r)) == r.items;
      assert View(r) == [r.items[r.cursor]] + r.items[..r.cursor];
    } else {
      assert View(r)[1..] == r.items[r.cursor + 1..] + r.items[..r.cursor];
      assert r.items[..r.cursor + 1] == r.items[..r.cursor] + [r.items[r.cursor]];
    }
  }

  lemma RemoveView<R>(r: RingValue<R>)
    requires WellFormed(r) && r.items != []
    ensures WellFormed(Remove(r)) && View(Remove(r)) == View(r)[1..]
  {
    var c := r.cursor;
    var t := r.items[..c] + r.items[c + 1..];
    assert View(r)[1..] == r.items[c + 1..] + r.items[..c];
    if c == |r.items| - 1 {
      assert t == r.items[..c];
    } else {
      assert t[c..] == r.items[c + 1..] && t[..c] == r.items[..c];
    }
  }

  ghost function RotateTimes<R>(r: RingValue<R>, n: nat): RingValue<R> {
    if n == 0 then r else Rotate(RotateTimes(r, n - 1))
  }

  lemma {:induction false} RotateTimesCursor<R>(r: RingValue<R>, n: nat)
    requires r.cursor < |r.items|
    ensures RotateTimes(r, n).items == r.items
    ensures n < |r.items| - r.cursor ==> RotateTimes(r, n).cursor == r.cursor + n
    ensures |r.items| - r.cursor <= n <= |r.items| ==> RotateTimes(r, n).cursor == r.cursor + n - |r.items|
    decreases n
  {
    if n == 0 {
    } else {
      RotateTimesCursor(r, n - 1);
    }
  }

  /** A full turn changes nothing. */
  lemma FullTurn<R>(r: RingValue<R>)
    requires WellFormed(r)
    ensures RotateTimes(r, |r.items|) == r
  {
    if r.items != [] {
      RotateTimesCursor(r, |r.items|);
    }
  }

  // ---------- the seam ----------

  /** Rotation leaves the seam where it is: after n rotations a newcomer is served behind all but n of the others. */
  lemma SeamAfterTurns<R>(items: seq<R>, n: nat, x: R)
    requires n < |items|
    ensures var r := Append(RotateTimes(RingValue(items, 0), n), x);
            WellFormed(r) && View(r) == items[n..] + [x] + items[..n]
  {
    RotateTimesCursor(RingValue(items, 0), n);
    AppendView(RotateTimes(RingValue(items, 0), n), x);
  }

  /**
    After n rotations and a removal a newcomer still goes between those not yet passed and those passed;
    when the last was removed, nobody counts as passed any more.
   */
  lemma SeamAfterRemoval<R>(items: seq<R>, n: nat, x: R)
    requires n < |items|
    ensures var t := RotateTimes(RingValue(items, 0), n);
            && t.cursor < |t.items|
            && var r := Append(Remove(t), x);
            && WellFormed(r)
            && View(r) == if n + 1 < |items| then items[n + 1..] + [x] + items[..n] else items[..n] + [x]
  {
    RotateTimesCursor(RingValue(items, 0), n);
    var t := RotateTimes(RingValue(items, 0), n);
    RemoveView(t);
    AppendView(Remove(t), x);
    var rest := items[..n] + items[n + 1..];
    if n + 1 < |items| {
      assert rest[n..] == items[n + 1..] && rest[..n] == items[..n];
    } else {
      assert rest == items[..n];
    }
  }

  // ---------- the linked nodes ----------

  class QueueNode<T> {
    var obj: T
    var next: QueueNode?<T>
    var prev: QueueNode?<T>

    constructor (obj: T)
      ensures this.obj == obj
    {
      this.obj, this.next, this.prev := obj, null, null;
    }
  }

  ghost predicate Distinct<T>(s: seq<QueueNode<T>>) {
    forall i, j :: 0 <= i < j < |s| ==> s[i] != s[j]
  }

  ghost function NextOf<T>(s: seq<QueueNode<T>>, i: nat): QueueNode<T>
    requires i < |s|
  {
    if i + 1 < |s| then s[i + 1] else s[0]
  }

  ghost function PrevOf<T>(s: seq<QueueNode<T>>, i: nat): QueueNode<T>
    requires i < |s|
  {
    if i == 0 then s[|s| - 1] else s[i - 1]
  }

  class Ring<T> {
    var head: QueueNode?<T>
    var tail: QueueNode?<T>
    var size: nat
    ghost var spine: seq<QueueNode<T>>  // the nodes from tail.next round to tail
    ghost var cursor: nat               // where the head is on the spine

    /** One cycle of exactly size nodes, next and prev inverse to each other, head and tail on it. */
    ghost predicate Valid()
      reads this, spine
    {
      && size == |spine| && Distinct(spine)
      && (spine == [] ==> head == null && tail == null && cursor == 0)
      && (spine != [] ==> cursor < |spine| && head == spine[cursor] && tail == spine[|spine| - 1])
      && Linked()
    }

    ghost predicate Linked()
      reads this, spine
    {
      && (forall i {:trigger spine[i].next} :: 0 <= i < |spine| ==> spine[i].next == NextOf(spine, i))
      && (forall i {:trigger spine[i].prev} :: 0 <= i < |spine| ==> spine[i].prev == PrevOf(spine, i))
    }

    ghost function Items(): (s: seq<T>)
      reads this, spine
      ensures |s| == |spine|
    {
      seq(|spine|, i requires 0 <= i < |spine| reads this, spine => spine[i].obj)
    }

    ghost function Value(): RingValue<T>
      reads this, spine
    {
      RingValue(Items(), cursor)
    }

    constructor ()
      ensures Valid() && Value() == RingValue([], 0) && spine == []
    {
      head, tail, size := null, null, 0;
      spine, cursor := [], 0;
    }

    method Enqueue(obj: T)
      requires Valid()
      modifies this, spine
      ensures Valid() && Value() == Append(old(Value()), obj)
      ensures fresh(set n | n in spine && n !in old(spine))
    {
      var node := new QueueNode<T>(obj);
      if tail == null {
        head, tail := node, node;
        node.next, node.prev := node, node;
      } else {
        node.next := tail.next;
        node.prev := tail;
        tail.next.prev := node;
        tail.next := node;
        tail := node;
      }
      size := size + 1;
      spine := spine + [node];
      assert Items() == old(Items()) + [obj];
    }

    /** cq_dequeue: moves the head on; nothing is removed. */
    method Dequeue() returns (obj: Option<T>)
      requires Valid()
      modifies this`head, this`cursor
      ensures Valid() && Value() == Rotate(old(Value()))
      ensures obj == if old(Items()) == [] then None else Some(old(Items())[old(cursor)])
    {
      if head == null {
        return None;
      }
      var node := head;
      obj := Some(node.obj);
      assert node == spine[cursor];
      head := node.next;
      cursor := if cursor + 1 == |spine| then 0 else cursor + 1;
      assert Items() == old(Items());
    }

    /** cq_dequeue_and_remove: unlinks and frees the head. */
    method DequeueAndRemove() returns (obj: Option<T>)
      requires Valid()
      modifies this, spine
      ensures Valid()
      ensures old(Items()) == [] ==> obj == None && Value() == old(Value())
      ensures old(Items()) != [] ==> obj == Some(old(Items())[old(cursor)]) && Value() == Remove(old(Value()))
      ensures forall n :: n in spine ==> n in old(spine)
    {
      if head == null {
        return None;
      }
      var node := head;
      obj := Some(node.obj);
      ghost var c := cursor;
      assert node == spine[c];
      if node == tail && node == tail.next {
        assert |spine| == 1;
        head, tail := null, null;
        spine := [];
      } else {
        Unlink(node, c);
        if node == tail {
          tail := node.prev;
        }
        head := node.next;
      }
      size := size - 1;
      cursor := if c == |old(spine)| - 1 then 0 else c;
      assert Items() == old(Items())[..c] + old(Items())[c + 1..];
    }

    /** Links the neighbours of a node to each other. */
    method Unlink(node: QueueNode<T>, ghost c: nat)
      requires |spine| >= 2 && c < |spine| && node == spine[c] && Distinct(spine) && Linked()
      modifies this`spine, (set n | n in spine)`next, (set n | n in spine)`prev
      ensures spine == old(spine)[..c] + old(spine)[c + 1..] && Linked()
      ensures node.next == old(node.next) && node.prev == old(node.prev)
    {
      node.prev.next := node.next;
      node.next.prev := node.prev;
      spine := spine[..c] + spine[c + 1..];
      forall i | 0 <= i < |spine|
        ensures spine[i].next == NextOf(spine, i) && spine[i].prev == PrevOf(spine, i)
      {
        assert spine[i] == old(spine)[if i < c then i else i + 1];
      }
    }

    method Front() returns (obj: Option<T>)
      requires Valid()
      ensures obj == if Items() == [] then None else Some(Items()[cursor])
    {
      if head == null {
        return None;
      }
      assert head == spine[cursor];
      return Some(head.obj);
    }
  }
}
