/**
  The dispatches of every run: bounded bypass under round robin, highest priority first under HPF.
 */
module FairRuns {
  import opened Options
  import opened CircularQueue
  import opened ReadyQueue
  import opened Processes
  import opened SchedulerModel
  import opened World
  import opened WorldInvariant
  import opened WorldRuns
  import opened Fairness
  import HeapSpec

  /** The order in which the ring will serve its processes, the running one counted as last. */
  ghost function ServiceOrder(s: Sched): seq<nat>
    requires s.queue.RingQueue? && WellFormed(s.queue.ring)
  {
    RingOrder(s.queue.ring, s.current.Some?)
  }

  ghost function RingOrder(r: RingValue<nat>, running: bool): seq<nat>
    requires WellFormed(r)
  {
    var v := View(r);
    if running && v != [] then v[1..] + [v[0]] else v
  }

  ghost predicate RoundRobinFair(w: World) {
    w.s.alg == RR && SchedInv(w.s) ==>
      Fair(ServiceOrder(w.s), w.dispatches, |w.s.pcbs|) && BoundedBypass(w.dispatches)
  }

  /** Whoever was dispatched had the least priority number of all that were unfinished then. */
  ghost predicate MostUrgent(pcbs: seq<Pcb>, e: Dispatch) {
    && e.slot < |pcbs|
    && forall q :: q in e.unfinished ==> q < |pcbs| && pcbs[e.slot].process.priority <= pcbs[q].process.priority
  }

  ghost predicate HighestFirst(w: World) {
    w.s.alg == HPF ==> forall k :: 0 <= k < |w.dispatches| ==> MostUrgent(w.s.pcbs, w.dispatches[k])
  }

  ghost predicate FairWorld(w: World) {
    RoundRobinFair(w) && HighestFirst(w)
  }

  // ---------- each part of a step ----------

  lemma UrgencyStays(v: World, w: World)
    requires HighestFirst(v) && SameProcesses(v.s, w.s) && w.dispatches == v.dispatches && w.s.alg == v.s.alg
    ensures HighestFirst(w)
  {
    forall k | 0 <= k < |w.dispatches| && w.s.alg == HPF
      ensures MostUrgent(w.s.pcbs, w.dispatches[k])
    {
      assert MostUrgent(v.s.pcbs, v.dispatches[k]);
    }
  }

  /** A newcomer enters the service order somewhere; the others keep their order. */
  lemma OrderAfterAppend(r: RingValue<nat>, running: bool, n: nat) returns (a: seq<nat>, b: seq<nat>)
    requires WellFormed(r) && (running ==> r.items != [])
    ensures WellFormed(Append(r, n))
    ensures RingOrder(r, running) == a + b && RingOrder(Append(r, n), running) == a + [n] + b
  {
    AppendView(r, n);
    if running {
      var c := r.cursor;
      a, b := r.items[c + 1..], r.items[..c] + [r.items[c]];
      assert View(r) == [r.items[c]] + (r.items[c + 1..] + r.items[..c]);
      assert View(Append(r, n)) == [r.items[c]] + (r.items[c + 1..] + [n] + r.items[..c]);
    } else {
      a, b := r.items[r.cursor..], r.items[..r.cursor];
    }
  }

  lemma ReceiveFair(w: World)
    requires MidInv(w) && FairWorld(w) && w.inbox != [] && ValidMessage(w.inbox[0])
    ensures FairWorld(ReceiveOne(w))
  {
    var v := ReceiveOne(w);
    UrgencyStays(w, v);
    if w.s.alg == RR {
      assert FreshPcb(w.inbox[0]);
      ReceiveKeeps(w.s, w.inbox[0]);
      if w.s.current.Some? {
        FrontWaits(w.s);
      }
      var a, b := OrderAfterAppend(w.s.queue.ring, w.s.current.Some?, |w.s.pcbs|);
      FairInsert(a, b, w.dispatches, |w.s.pcbs|);
    }
  }

  lemma {:induction false} DrainFair(w: World)
    requires MidInv(w) && FairWorld(w)
    ensures FairWorld(DrainAll(w))
    decreases |w.inbox|
  {
    if w.inbox == [] || !ValidMessage(w.inbox[0]) {
    } else {
      ReceiveKeepsMid(w);
      ReceiveFair(w);
      DrainFair(ReceiveOne(w));
    }
  }

  /** Under round robin every unfinished process is in the ring. */
  lemma UnfinishedInView(s: Sched, q: nat)
    requires SchedInv(s) && s.alg == RR && q in Unfinished(s)
    ensures q in View(s.queue.ring)
  {
    var r := s.queue.ring;
    assert Waiting(s, q);
    WantedNode(s, HeapSpec.PNode(q, 0));
    assert HeapSpec.PNode(q, 0) in multiset(Keyed(r.items));
    assert HeapSpec.PNode(q, 0) in Keyed(r.items);
    var k :| 0 <= k < |r.items| && Keyed(r.items)[k] == HeapSpec.PNode(q, 0);
    assert View(r)[if k < r.cursor then |r.items| - r.cursor + k else k - r.cursor] == r.items[k];
  }

  lemma BegunFairRR(w: World, c: nat, v: World)
    requires BegunShape(w, c, v) && v.s.queue == w.s.queue && SchedInv(w.s) && SchedInv(v.s)
    requires w.s.alg == RR && Front(w.s.queue) == Some(c) && RoundRobinFair(w)
    ensures RoundRobinFair(v)
  {
    var e := v.dispatches[|w.dispatches|];
    var view := View(w.s.queue.ring);
    assert view[0] == c;
    assert view == [c] + view[1..];
    FairTurn(view[1..], w.dispatches, |w.s.pcbs|, e);
    forall q | q in e.unfinished
      ensures q in view
    {
      UnfinishedInView(w.s, q);
    }
    BypassTurn(view, w.dispatches, |w.s.pcbs|, e);
  }

  lemma BegunUrgent(w: World, c: nat, v: World)
    requires BegunShape(w, c, v) && SchedInv(w.s) && w.s.alg == HPF && Front(w.s.queue) == Some(c) && HighestFirst(w)
    ensures HighestFirst(v)
  {
    FrontWaits(w.s);
    UrgencyStays(w, v.(dispatches := w.dispatches));
    var e := v.dispatches[|w.dispatches|];
    forall q | q in e.unfinished
      ensures q < |v.s.pcbs| && v.s.pcbs[c].process.priority <= v.s.pcbs[q].process.priority
    {
      assert Waiting(w.s, q);
    }
  }

  lemma StartFair(w: World)
    requires MidInv(w) && FairWorld(w)
    ensures Bounded(w.s) && FairWorld(StartNext(w))
  {
    InvBounded(w.s);
    if w.s.current == None {
      if Front(w.s.queue) == None {
        NothingToBegin(w);
      } else {
        var c := Front(w.s.queue).value;
        BegunSched(w);
        BegunHasShape(w, c);
        if w.s.alg == RR {
          BegunFairRR(w, c, StartNext(w));
        } else if w.s.alg == HPF {
          BegunUrgent(w, c, StartNext(w));
        }
      }
    }
  }

  lemma StopFair(w: World, c: nat)
    requires MidInv(w) && FairWorld(w) && w.s.alg != HPF && w.s.current == Some(c)
    ensures Bounded(w.s) && FairWorld(w.(s := Expire(w.s, w.clock)))
  {
    StoppedHasShape(w, c);
    if w.s.alg == RR {
      FrontWaits(w.s);
      RotateView(w.s.queue.ring);
    }
  }

  lemma HandleFair(w: World)
    requires MidInv(w) && FairWorld(w) && (w.s.current == None ==> Front(w.s.queue) == None)
    ensures Bounded(w.s) && FairWorld(HandleCurrent(w))
  {
    HandleIsStop(w);
    if MustStop(w.s) {
      StopFair(w, w.s.current.value);
    }
  }

  lemma EndFair(w: World, c: nat)
    requires Inv(w) && FairWorld(w) && w.s.current == Some(c) && w.s.pcbs[c].remaining == 1
    ensures Bounded(w.s) && FairWorld(TickOnce(w))
  {
    InvBounded(w.s);
    EndHasShape(w, c);
    UrgencyStays(w, TickOnce(w));
    if w.s.alg == RR {
      FrontWaits(w.s);
      RemoveView(w.s.queue.ring);
      var view := View(w.s.queue.ring);
      FairDrop(view[1..], view[0], w.dispatches, |w.s.pcbs|);
    }
  }

  lemma CountFair(w: World, c: nat)
    requires Inv(w) && FairWorld(w) && w.s.current == Some(c) && w.s.pcbs[c].remaining > 1
    ensures Bounded(w.s) && FairWorld(TickOnce(w))
  {
    hide LogRight, SpansRight, NothingLost, FinishedOnce, TimeAddsUp, History, NonPreemptive;
    CountHasShape(w, c);
    UrgencyStays(w, TickOnce(w));
  }

  lemma TickFair(w: World)
    requires Inv(w) && FairWorld(w)
    ensures Bounded(w.s) && FairWorld(TickOnce(w))
  {
    InvBounded(w.s);
    if w.s.current.Some? {
      var c := w.s.current.value;
      if w.s.pcbs[c].remaining > 1 {
        CountFair(w, c);
      } else {
        EndFair(w, c);
      }
    }
  }

  lemma FlagsFair(v: World, w: World)
    requires FairWorld(v) && SchedInv(v.s)
    requires w.s == v.s.(noMore := w.s.noMore) && w.dispatches == v.dispatches
    ensures FairWorld(w)
  {
    UrgencyStays(v, w);
  }

  lemma PassFair(w: World)
    requires Inv(w) && FairWorld(w)
    ensures FairWorld(PassOnce(w))
  {
    if Done(w.s) {
      FlagsFair(w, PassOnce(w));
    } else {
      var a, b, c := PassParts(w);
      DrainFair(w);
      StartFair(a);
      HandleFair(b);
      FlagsFair(c, PassOnce(w));
    }
  }

  lemma {:induction false} LatePassFair(w: World, late: seq<Sending>, announced: bool)
    requires Inv(w) && FairWorld(w) && Legal(w, Pass(late, announced))
    ensures FairWorld(PassWith(w, late, announced))
  {
    hide FairWorld, LogRight, SpansRight, NothingLost, FinishedOnce, TimeAddsUp, History, NonPreemptive, Running;
    PassWithIs(w, late, announced);
    FlagsFair(w, Announce(w, announced));
    PassFair(Announce(w, announced));
    FlagsFair(PassOnce(Announce(w, announced)), PassWith(w, late, announced));
  }

  lemma {:induction false} NextFair(w: World, step: Step)
    requires Inv(w) && FairWorld(w) && Legal(w, step)
    ensures FairWorld(Next(w, step))
  {
    hide FairWorld, LogRight, SpansRight, NothingLost, FinishedOnce, TimeAddsUp, History, NonPreemptive, Running;
    match step
    case Pass(late, announced) => LatePassFair(w, late, announced);
    case Tick => TickFair(w);
    case Arrive(_) => FlagsFair(w, Next(w, step));
    case Close => FlagsFair(w, Next(w, step));
  }

  lemma {:induction false} RunFair(w: World, steps: seq<Step>)
    requires Inv(w) && FairWorld(w) && LegalRun(w, steps)
    ensures FairWorld(After(w, steps))
    decreases |steps|
  {
    if steps == [] {
    } else {
      NextFair(w, steps[0]);
      RunFair(Next(w, steps[0]), steps[1..]);
    }
  }

  // ---------- the results ----------

  lemma StartFairly(alg: Algorithm, quantum: int, origin: nat)
    requires quantum >= 1
    ensures FairWorld(Begin(alg, quantum, origin))
  {
  }

  /** In every round-robin run the dispatches satisfy bounded bypass. */
  lemma RoundRobinBoundedBypass(quantum: int, origin: nat, steps: seq<Step>)
    requires quantum >= 1 && LegalRun(Begin(RR, quantum, origin), steps)
    ensures BoundedBypass(After(Begin(RR, quantum, origin), steps).dispatches)
  {
    var b := Begin(RR, quantum, origin);
    StartFairly(RR, quantum, origin);
    RunFair(b, steps);
  }

  /** A process that has run waits for at most one slice of each of the others before it runs again. */
  lemma RoundRobinWait(quantum: int, origin: nat, steps: seq<Step>, i: nat, j: nat)
    requires quantum >= 1 && LegalRun(Begin(RR, quantum, origin), steps)
    requires Consecutive(After(Begin(RR, quantum, origin), steps).dispatches, i, j)
    ensures j - i <= |After(Begin(RR, quantum, origin), steps).s.pcbs|
  {
    var b := Begin(RR, quantum, origin);
    StartFairly(RR, quantum, origin);
    RunFair(b, steps);
    var w := After(b, steps);
    BypassBound(w.dispatches, |w.s.pcbs|, i, j);
  }

  /** In every HPF run each dispatched process was among the most urgent unfinished ones. */
  lemma HpfDispatchesMostUrgent(quantum: int, origin: nat, steps: seq<Step>, k: nat)
    requires quantum >= 1 && LegalRun(Begin(HPF, quantum, origin), steps)
    requires k < |After(Begin(HPF, quantum, origin), steps).dispatches|
    ensures var w := After(Begin(HPF, quantum, origin), steps);
            MostUrgent(w.s.pcbs, w.dispatches[k])
  {
    var b := Begin(HPF, quantum, origin);
    StartFairly(HPF, quantum, origin);
    RunFair(b, steps);
  }
}
