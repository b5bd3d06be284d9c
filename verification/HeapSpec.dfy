/**
  The heap operations on the sequence of nodes, and why they implement a minimum multiset.
  A node stores the negated priority number, so the root has the greatest stored value.
 */
module HeapSpec {

  datatype PNode<+R> = PNode(item: R, priority: int)

  type Nodes<+R> = seq<PNode<R>>

  function Swap<R>(s: Nodes<R>, i: nat, j: nat): (t: Nodes<R>)
    requires i < |s| && j < |s|
  {
    s[i := s[j]][j := s[i]]
  }

  function Parent(i: nat): (p: nat)
    requires i > 0
    ensures p < i
  {
    (i - 1) / 2
  }

  /** The loop that moves node i towards the root. */
  function SiftUp<R>(s: Nodes<R>, i: nat): (t: Nodes<R>)
    requires i < |s|
    ensures |t| == |s|
    decreases i
  {
    if i == 0 then s
    else if s[i].priority > s[Parent(i)].priority then SiftUp(Swap(s, i, Parent(i)), Parent(i))
    else s
  }

  /** The greatest among i and its children, preferring i, then the left child. */
  function Largest<R>(s: Nodes<R>, i: nat): (m: nat)
    requires i < |s|
    ensures m < |s| && (m == i || m == 2 * i + 1 || m == 2 * i + 2)
  {
    var m := if 2 * i + 1 < |s| && s[2 * i + 1].priority > s[i].priority then 2 * i + 1 else i;
    if 2 * i + 2 < |s| && s[2 * i + 2].priority > s[m].priority then 2 * i + 2 else m
  }

  /** pq_heapify: moves node i towards the leaves. */
  function Heapify<R>(s: Nodes<R>, i: nat): (t: Nodes<R>)
    requires i < |s|
    ensures |t| == |s|
    decreases |s| - i
  {
    var m := Largest(s, i);
    if m != i then Heapify(Swap(s, i, m), m) else s
  }

  function Enqueue<R>(s: Nodes<R>, item: R, priority: int): Nodes<R> {
    SiftUp(s + [PNode(item, -priority)], |s|)
  }

  function Dequeue<R>(s: Nodes<R>): Nodes<R>
    requires s != []
  {
    var t := Swap(s, 0, |s| - 1)[..|s| - 1];
    if t == [] then t else Heapify(t, 0)
  }

  function ChangePriority<R>(s: Nodes<R>, index: int, priority: int): Nodes<R> {
    if index < 0 || index >= |s| then s
    else
      var t := s[index := s[index].(priority := -priority)];
      if -priority > s[index].priority then SiftUp(t, index)
      else if -priority < s[index].priority then Heapify(t, index)
      else t
  }

  // ---------- the heap order ----------

  /** Node j is not greater than node i. */
  ghost predicate Over<R>(s: Nodes<R>, i: nat, j: nat)
    requires i < |s| && j < |s|
  {
    s[i].priority >= s[j].priority
  }

  ghost predicate HeapOrder<R>(s: Nodes<R>) {
    forall j :: 0 < j < |s| ==> Over(s, Parent(j), j)
  }

  /** The heap order holds except that node i may be greater than its parent. */
  ghost predicate OrderExceptAbove<R>(s: Nodes<R>, i: nat)
    requires i < |s|
  {
    && (forall j :: 0 < j < |s| && j != i ==> Over(s, Parent(j), j))
    && (forall j :: 0 < j < |s| && Parent(j) == i && 0 < i ==> Over(s, Parent(i), j))
  }

  /** The heap order holds except that node i may be less than its children. */
  ghost predicate OrderExceptBelow<R>(s: Nodes<R>, i: nat)
    requires i < |s|
  {
    && (forall j :: 0 < j < |s| && Parent(j) != i ==> Over(s, Parent(j), j))
    && (forall j :: 0 < j < |s| && Parent(j) == i && 0 < i ==> Over(s, Parent(i), j))
  }

  lemma {:induction false} RootIsGreatest<R>(s: Nodes<R>, j: nat)
    requires HeapOrder(s) && j < |s|
    ensures Over(s, 0, j)
  {
    if j == 0 {
    } else {
      assert Over(s, Parent(j), j);
      RootIsGreatest(s, Parent(j));
    }
  }

  lemma SwapMultiset<R>(s: Nodes<R>, i: nat, j: nat)
    requires i < |s| && j < |s|
    ensures multiset(Swap(s, i, j)) == multiset(s)
  {
  }

  lemma SwapUp<R>(s: Nodes<R>, i: nat)
    requires 0 < i < |s| && OrderExceptAbove(s, i) && s[i].priority > s[Parent(i)].priority
    ensures OrderExceptAbove(Swap(s, i, Parent(i)), Parent(i))
  {
    var p := Parent(i);
    var t := Swap(s, i, p);
    forall j | 0 < j < |t| && j != p
      ensures Over(t, Parent(j), j)
    {
      if j != i {
        assert Over(s, Parent(j), j);
        if Parent(j) == i {
          assert Over(s, p, j);
        }
      }
    }
    forall j | 0 < j < |t| && Parent(j) == p && 0 < p
      ensures Over(t, Parent(p), j)
    {
      assert Over(s, Parent(p), p);
      if j != i {
        assert Over(s, Parent(j), j);
      }
    }
  }

  lemma {:induction false} SiftUpKeeps<R>(s: Nodes<R>, i: nat)
    requires i < |s| && OrderExceptAbove(s, i)
    ensures HeapOrder(SiftUp(s, i)) && multiset(SiftUp(s, i)) == multiset(s)
    decreases i
  {
    if i > 0 && s[i].priority > s[Parent(i)].priority {
      SwapMultiset(s, i, Parent(i));
      SwapUp(s, i);
      SiftUpKeeps(Swap(s, i, Parent(i)), Parent(i));
    } else {
      forall j | 0 < j < |s|
        ensures Over(s, Parent(j), j)
      {
      }
    }
  }

  lemma SwapDown<R>(s: Nodes<R>, i: nat)
    requires i < |s| && OrderExceptBelow(s, i) && Largest(s, i) != i
    ensures OrderExceptBelow(Swap(s, i, Largest(s, i)), Largest(s, i))
  {
    var m := Largest(s, i);
    var t := Swap(s, i, m);
    forall j | 0 < j < |t| && Parent(j) != m
      ensures Over(t, Parent(j), j)
    {
      if Parent(j) != i {
        assert Over(s, Parent(j), j);
        if j == i {
          assert Over(s, Parent(i), m);
        }
      }
    }
    forall j | 0 < j < |t| && Parent(j) == m
      ensures Over(t, Parent(m), j)
    {
      assert Over(s, Parent(j), j);
    }
  }

  lemma {:induction false} HeapifyKeeps<R>(s: Nodes<R>, i: nat)
    requires i < |s| && OrderExceptBelow(s, i)
    ensures HeapOrder(Heapify(s, i)) && multiset(Heapify(s, i)) == multiset(s)
    decreases |s| - i
  {
    var m := Largest(s, i);
    if m != i {
      SwapMultiset(s, i, m);
      SwapDown(s, i);
      HeapifyKeeps(Swap(s, i, m), m);
    } else {
      forall j | 0 < j < |s|
        ensures Over(s, Parent(j), j)
      {
      }
    }
  }

  // ---------- each operation keeps the order and changes the multiset as specified ----------

  lemma EnqueueKeeps<R>(s: Nodes<R>, item: R, priority: int)
    requires HeapOrder(s)
    ensures HeapOrder(Enqueue(s, item, priority))
    ensures multiset(Enqueue(s, item, priority)) == multiset(s) + multiset{PNode(item, -priority)}
  {
    var t := s + [PNode(item, -priority)];
    forall j | 0 < j < |s|
      ensures Over(t, Parent(j), j)
    {
      assert Over(s, Parent(j), j);
    }
    SiftUpKeeps(t, |s|);
  }

  lemma {:induction false} AboveIsLess<R>(s: Nodes<R>, i: nat, j: nat)
    requires i < |s| && OrderExceptAbove(s, i) && j < i
    ensures Over(s, 0, j)
  {
    if j == 0 {
    } else {
      assert Over(s, Parent(j), j);
      AboveIsLess(s, i, Parent(j));
    }
  }

  lemma {:induction false} SiftUpRoot<R>(s: Nodes<R>, i: nat)
    requires 0 < i < |s| && OrderExceptAbove(s, i)
    ensures SiftUp(s, i)[0] == if s[i].priority > s[0].priority then s[i] else s[0]
    decreases i
  {
    var p := Parent(i);
    AboveIsLess(s, i, p);
    if s[i].priority <= s[p].priority || p == 0 {
    } else {
      SwapUp(s, i);
      SiftUpRoot(Swap(s, i, p), p);
    }
  }

  /** A newcomer takes the front only if its number is strictly less; otherwise the front stays. */
  lemma EnqueueFront<R>(s: Nodes<R>, item: R, priority: int)
    requires HeapOrder(s)
    ensures var t := Enqueue(s, item, priority);
            t[0] == if s == [] || priority < -s[0].priority then PNode(item, -priority) else s[0]
  {
    var t := s + [PNode(item, -priority)];
    if s != [] {
      forall j | 0 < j < |s|
        ensures Over(t, Parent(j), j)
      {
        assert Over(s, Parent(j), j);
      }
      SiftUpRoot(t, |s|);
    }
  }

  lemma DequeueKeeps<R>(s: Nodes<R>)
    requires HeapOrder(s) && s != []
    ensures HeapOrder(Dequeue(s))
    ensures multiset(Dequeue(s)) == multiset(s) - multiset{s[0]}
  {
    var n := |s| - 1;
    var u := Swap(s, 0, n);
    var t := u[..n];
    SwapMultiset(s, 0, n);
    assert u == t + [s[0]];
    if t != [] {
      forall j | 0 < j < |t| && Parent(j) != 0
        ensures Over(t, Parent(j), j)
      {
        assert Over(s, Parent(j), j);
      }
      HeapifyKeeps(t, 0);
    }
  }

  lemma FrontIsMinimal<R>(s: Nodes<R>)
    requires HeapOrder(s) && s != []
    ensures forall x :: x in s ==> s[0].priority >= x.priority
  {
    forall x | x in s
      ensures s[0].priority >= x.priority
    {
      var j :| 0 <= j < |s| && s[j] == x;
      RootIsGreatest(s, j);
    }
  }

  /** One repair, up or down, is enough wherever the changed node sits. */
  lemma ChangePriorityKeeps<R>(s: Nodes<R>, index: nat, priority: int)
    requires HeapOrder(s) && index < |s|
    ensures HeapOrder(ChangePriority(s, index, priority))
    ensures multiset(ChangePriority(s, index, priority))
         == multiset(s) - multiset{s[index]} + multiset{PNode(s[index].item, -priority)}
  {
    var t := s[index := s[index].(priority := -priority)];
    forall j | 0 < j < |s|
      ensures j != index && Parent(j) != index ==> Over(t, Parent(j), j)
      ensures j != index && -priority >= s[index].priority ==> Over(t, Parent(j), j)
      ensures Parent(j) != index && -priority <= s[index].priority ==> Over(t, Parent(j), j)
      ensures Parent(j) == index && 0 < index ==> Over(t, Parent(index), j)
    {
      assert Over(s, Parent(j), j);
      if 0 < index {
        assert Over(s, Parent(index), index);
      }
    }
    if -priority > s[index].priority {
      SiftUpKeeps(t, index);
    } else if -priority < s[index].priority {
      HeapifyKeeps(t, index);
    } else {
      assert t == s;
    }
  }

  // ---------- which of several equals moves ----------

  /** t is s with node i moved to the end of the path and those on the path moved one step towards its start. */
  ghost predicate MovedAlong<R>(s: Nodes<R>, t: Nodes<R>, i: nat, path: seq<nat>) {
    && |t| == |s| && |path| > 0 && path[0] == i && (forall j :: 0 <= j < |path| ==> path[j] < |s|)
    && t[path[|path| - 1]] == s[i]
    && (forall j :: 0 <= j < |path| - 1 ==> t[path[j]] == s[path[j + 1]])
    && (forall x :: 0 <= x < |s| && x !in path ==> t[x] == s[x])
  }

  /** Upwards: past every ancestor that is strictly less than v, up to the first that is not. */
  ghost predicate Rises<R>(s: Nodes<R>, v: int, path: seq<nat>)
    requires path != []
    decreases |path|
  {
    path[0] < |s| &&
    if |path| == 1 then path[0] > 0 ==> s[Parent(path[0])].priority >= v
    else path[0] > 0 && path[1] == Parent(path[0]) && s[path[1]].priority < v && Rises(s, v, path[1..])
  }

  /** m is the greatest child of p, the left one if they are equal. */
  ghost predicate PreferredChild<R>(s: Nodes<R>, p: nat, m: nat) {
    && m < |s| && (m == 2 * p + 1 || m == 2 * p + 2)
    && s[2 * p + 1].priority <= s[m].priority
    && (2 * p + 2 < |s| ==> s[2 * p + 2].priority <= s[m].priority)
    && (m == 2 * p + 2 ==> s[2 * p + 1].priority < s[m].priority)
  }

  /** Downwards: past the preferred child as long as that is strictly greater than v. */
  ghost predicate Sinks<R>(s: Nodes<R>, v: int, path: seq<nat>)
    requires path != []
    decreases |path|
  {
    path[0] < |s| &&
    if |path| == 1 then
      && (2 * path[0] + 1 < |s| ==> s[2 * path[0] + 1].priority <= v)
      && (2 * path[0] + 2 < |s| ==> s[2 * path[0] + 2].priority <= v)
    else PreferredChild(s, path[0], path[1]) && s[path[1]].priority > v && Sinks(s, v, path[1..])
  }

  lemma MovedOne<R>(s: Nodes<R>, t: Nodes<R>, i: nat, m: nat, path: seq<nat>)
    requires i < |s| && m < |s| && MovedAlong(Swap(s, i, m), t, m, path) && i !in path
    requires forall j :: 0 < j < |path| ==> path[j] != m
    ensures MovedAlong(s, t, i, [i] + path)
  {
    var u, longer := Swap(s, i, m), [i] + path;
    assert i != m by {
      assert path[0] in path;
    }
    assert longer[|longer| - 1] == path[|path| - 1];
    forall j | 0 <= j < |longer| - 1
      ensures t[longer[j]] == s[longer[j + 1]]
    {
      if j == 0 {
        assert i !in path;
        assert t[i] == u[i];
      } else {
        assert path[j] != i by {
          assert path[j] in path;
        }
        assert t[path[j - 1]] == u[path[j]];
      }
    }
    forall x | 0 <= x < |s| && x !in longer
      ensures t[x] == s[x]
    {
      assert path[0] in longer && longer[0] in longer;
      assert x !in path;
    }
  }

  /** Nodes behind the path do not matter. */
  lemma {:induction false} RisesSame<R>(s: Nodes<R>, t: Nodes<R>, v: int, path: seq<nat>)
    requires path != [] && Rises(t, v, path) && |t| == |s|
    requires forall x :: 0 <= x < path[0] < |s| ==> t[x].priority == s[x].priority
    ensures Rises(s, v, path)
    decreases |path|
  {
    if |path| == 1 {
    } else {
      RisesSame(s, t, v, path[1..]);
    }
  }

  /** Nodes before the path do not matter. */
  lemma {:induction false} SinksSame<R>(s: Nodes<R>, t: Nodes<R>, v: int, path: seq<nat>)
    requires path != [] && Sinks(t, v, path) && |t| == |s|
    requires forall x :: path[0] < x < |s| ==> t[x].priority == s[x].priority
    ensures Sinks(s, v, path)
    decreases |path|
  {
    if |path| == 1 {
    } else {
      SinksSame(s, t, v, path[1..]);
    }
  }

  /** Node i goes up past its strict inferiors and no further: among equals it stays behind. */
  lemma {:induction false} SiftUpRises<R>(s: Nodes<R>, i: nat) returns (path: seq<nat>)
    requires i < |s|
    ensures MovedAlong(s, SiftUp(s, i), i, path) && path != [] && Rises(s, s[i].priority, path)
    ensures forall j :: 0 <= j < |path| ==> path[j] <= i && (j > 0 ==> path[j] < i)
    decreases i
  {
    hide MovedAlong;
    if i > 0 && s[i].priority > s[Parent(i)].priority {
      var p := Parent(i);
      var more := SiftUpRises(Swap(s, i, p), p);
      StartsAt(Swap(s, i, p), SiftUp(s, i), p, more);
      RisesSame(s, Swap(s, i, p), s[i].priority, more);
      MovedOne(s, SiftUp(s, i), i, p, more);
      path := [i] + more;
      assert path[1..] == more;
    } else {
      path := [i];
      StaysPut(s, i);
    }
  }

  lemma StartsAt<R>(s: Nodes<R>, t: Nodes<R>, i: nat, path: seq<nat>)
    requires MovedAlong(s, t, i, path)
    ensures path != [] && path[0] == i && |t| == |s|
  {
  }

  lemma StaysPut<R>(s: Nodes<R>, i: nat)
    requires i < |s|
    ensures MovedAlong(s, s, i, [i])
  {
  }

  lemma LargestIs<R>(s: Nodes<R>, i: nat)
    requires i < |s|
    ensures var m := Largest(s, i);
            if m != i then m > i && PreferredChild(s, i, m) && s[m].priority > s[i].priority
            else && (2 * i + 1 < |s| ==> s[2 * i + 1].priority <= s[i].priority)
                 && (2 * i + 2 < |s| ==> s[2 * i + 2].priority <= s[i].priority)
  {
  }

  /** Node i goes down to where neither child is strictly greater, past the preferred children. */
  lemma {:induction false} HeapifySinks<R>(s: Nodes<R>, i: nat) returns (path: seq<nat>)
    requires i < |s|
    ensures MovedAlong(s, Heapify(s, i), i, path) && path != [] && Sinks(s, s[i].priority, path)
    ensures forall j :: 0 <= j < |path| ==> path[j] >= i && (j > 0 ==> path[j] > i)
    decreases |s| - i
  {
    hide MovedAlong, Largest, PreferredChild;
    var m := Largest(s, i);
    LargestIs(s, i);
    if m != i {
      var more := HeapifySinks(Swap(s, i, m), m);
      StartsAt(Swap(s, i, m), Heapify(s, i), m, more);
      SinksSame(s, Swap(s, i, m), s[i].priority, more);
      MovedOne(s, Heapify(s, i), i, m, more);
      path := [i] + more;
      assert path[1..] == more;
    } else {
      path := [i];
      StaysPut(s, i);
    }
  }

  /** Enqueue puts the new node last and lets it rise. */
  lemma EnqueueRises<R>(s: Nodes<R>, item: R, priority: int) returns (path: seq<nat>)
    ensures var t := s + [PNode(item, -priority)];
            MovedAlong(t, Enqueue(s, item, priority), |s|, path) && path != [] && Rises(t, -priority, path)
  {
    path := SiftUpRises(s + [PNode(item, -priority)], |s|);
  }

  /** Dequeue puts the last node in the place of the root and lets it sink. */
  lemma DequeueSinks<R>(s: Nodes<R>) returns (path: seq<nat>)
    requires |s| > 1
    ensures var t := [s[|s| - 1]] + s[1..|s| - 1];
            MovedAlong(t, Dequeue(s), 0, path) && path != [] && Sinks(t, t[0].priority, path)
  {
    assert Swap(s, 0, |s| - 1)[..|s| - 1] == [s[|s| - 1]] + s[1..|s| - 1];
    path := HeapifySinks([s[|s| - 1]] + s[1..|s| - 1], 0);
  }

  /** A changed node rises if its number fell, sinks if it grew, and stays otherwise. */
  lemma ChangePriorityMoves<R>(s: Nodes<R>, index: nat, priority: int) returns (path: seq<nat>)
    requires index < |s|
    ensures var t := s[index := PNode(s[index].item, -priority)];
            && MovedAlong(t, ChangePriority(s, index, priority), index, path) && path != []
            && (priority < -s[index].priority ==> Rises(t, -priority, path))
            && (priority > -s[index].priority ==> Sinks(t, -priority, path))
            && (priority == -s[index].priority ==> path == [index])
  {
    var t := s[index := PNode(s[index].item, -priority)];
    path := [index];
    if priority < -s[index].priority {
      path := SiftUpRises(t, index);
    } else if priority > -s[index].priority {
      path := HeapifySinks(t, index);
    }
  }
}
