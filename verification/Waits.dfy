/**
  How long a process waits in the round-robin ring: for those ahead of it, and for the newcomers that
  enter at the seam while it stands behind the seam. Nobody overtakes a process ahead of the seam.
 */
module Waits {
  import opened Options
  import opened CircularQueue
  import opened ReadyQueue
  import opened Processes
  import opened SchedulerModel
  import opened World
  import opened WorldInvariant
  import opened WorldRuns
  import opened Quiescence

  ghost predicate DispatchedSince(d: seq<Dispatch>, from: nat, p: nat) {
    exists k :: from <= k < |d| && d[k].slot == p
  }

  /** How many are served before the one at index i of the ring; the running one, at the cursor, is being served. */
  ghost function Rank(r: RingValue<nat>, i: nat, running: bool): int {
    (if i >= r.cursor then i - r.cursor else |r.items| - r.cursor + i) - (if running then 1 else 0)
  }

  /** p stands at index i, does not run, and at most m are served before it; if `ahead`, it stands ahead of the seam. */
  ghost predicate Stands(s: Sched, p: nat, i: nat, m: int, ahead: bool) {
    && s.queue.RingQueue? && i < |s.queue.ring.items| && s.queue.ring.items[i] == p
    && s.current != Some(p) && Rank(s.queue.ring, i, s.current.Some?) <= m
    && (ahead ==> i >= s.queue.ring.cursor)
  }

  ghost predicate Waits(s: Sched, p: nat, m: int, ahead: bool) {
    exists i: nat :: Stands(s, p, i, m, ahead)
  }

  /** p stands behind the seam: newcomers enter ahead of it. */
  ghost predicate Behind(s: Sched, p: nat) {
    && s.queue.RingQueue?
    && exists i :: 0 <= i < |s.queue.ring.items| && i < s.queue.ring.cursor && s.queue.ring.items[i] == p
  }

  /**
    Since dispatch number `from`, p was dispatched, or it waits, and at most `bound` dispatches come
    before its own, counting from the first of all.
   */
  ghost predicate Soon(w: World, p: nat, from: nat, bound: int, ahead: bool) {
    && from <= |w.dispatches|
    && (DispatchedSince(w.dispatches, from, p) || Waits(w.s, p, bound - |w.dispatches|, ahead))
  }

  /** How many of the newcomers overtake a process that stands where p does. */
  ghost function Overtaking(s: Sched, p: nat, ahead: bool, newcomers: int): int {
    if ahead || !Behind(s, p) then 0 else newcomers
  }

  lemma WaitsLonger(s: Sched, p: nat, m: int, n: int, ahead: bool)
    requires Waits(s, p, m, ahead) && m <= n
    ensures Waits(s, p, n, ahead)
  {
    var i: nat :| Stands(s, p, i, m, ahead);
    assert Stands(s, p, i, n, ahead);
  }

  lemma SoonLonger(w: World, p: nat, from: nat, bound: int, longer: int, ahead: bool)
    requires Soon(w, p, from, bound, ahead) && bound <= longer
    ensures Soon(w, p, from, longer, ahead)
  {
    if !DispatchedSince(w.dispatches, from, p) {
      WaitsLonger(w.s, p, bound - |w.dispatches|, longer - |w.dispatches|, ahead);
    }
  }

  // ---------- what happens to the ring ----------

  lemma WaitsAfterReceive(s: Sched, m: Pcb, p: nat, n: int, ahead: bool)
    requires s.queue.RingQueue? && WellFormed(s.queue.ring)
    ensures Behind(Receive(s, m), p) ==> Behind(s, p)
    ensures Waits(s, p, n, ahead) ==> Waits(Receive(s, m), p, n + Overtaking(s, p, ahead, 1), ahead)
  {
    var t := Receive(s, m);
    if Behind(t, p) {
      var i :| 0 <= i < |t.queue.ring.items| && i < t.queue.ring.cursor && t.queue.ring.items[i] == p;
      assert s.queue.ring.items[i] == p;
    }
    if Waits(s, p, n, ahead) {
      var i: nat :| Stands(s, p, i, n, ahead);
      assert Stands(t, p, i, n + Overtaking(s, p, ahead, 1), ahead);
    }
  }

  /** The front is dispatched: one fewer is ahead of the others. */
  lemma WaitsAfterDispatch(s: Sched, t: Sched, c: nat, p: nat, n: int, ahead: bool)
    requires s.queue.RingQueue? && WellFormed(s.queue.ring) && t.queue == s.queue
    requires s.current == None && t.current == Some(c) && Front(s.queue) == Some(c) && p != c
    requires Waits(s, p, n, ahead)
    ensures Waits(t, p, n - 1, ahead)
  {
    var i: nat :| Stands(s, p, i, n, ahead);
    assert Stands(t, p, i, n - 1, ahead);
  }

  /** The running front is passed over: the others keep their ranks. */
  lemma WaitsAfterRotate(s: Sched, t: Sched, p: nat, n: int, ahead: bool)
    requires s.queue.RingQueue? && WellFormed(s.queue.ring) && t.queue == RingQueue(Rotate(s.queue.ring))
    requires s.current.Some? && t.current == None && Front(s.queue) == s.current
    requires Waits(s, p, n, ahead)
    ensures Waits(t, p, n, ahead)
  {
    var i: nat :| Stands(s, p, i, n, ahead);
    assert i != s.queue.ring.cursor;
    assert Stands(t, p, i, n, ahead);
  }

  /** The running front is removed: the others keep their ranks. */
  lemma WaitsAfterRemove(s: Sched, t: Sched, p: nat, n: int, ahead: bool)
    requires s.queue.RingQueue? && WellFormed(s.queue.ring) && Front(s.queue) == s.current
    requires s.current.Some? && t.current == None && t.queue == RingQueue(Remove(s.queue.ring))
    requires Waits(s, p, n, ahead)
    ensures Waits(t, p, n, ahead)
  {
    var i: nat :| Stands(s, p, i, n, ahead);
    var c := s.queue.ring.cursor;
    assert i != c;
    var j: nat := if i < c then i else i - 1;
    assert Stands(t, p, j, n, ahead);
  }

  lemma WaitsSame(s: Sched, t: Sched, p: nat, n: int, ahead: bool)
    requires Waits(s, p, n, ahead) && t.queue == s.queue && t.current == s.current
    ensures Waits(t, p, n, ahead)
  {
    var i: nat :| Stands(s, p, i, n, ahead);
    assert Stands(t, p, i, n, ahead);
  }

  // ---------- each part of a step ----------

  lemma {:induction false} RingOf(w: World)
    requires MidInv(w) && w.s.alg == RR
    ensures w.s.queue.RingQueue? && WellFormed(w.s.queue.ring)
    ensures w.s.current.Some? ==> Front(w.s.queue) == w.s.current
  {
  }

  lemma {:induction false} DrainSoon(w: World, p: nat, from: nat, bound: int, ahead: bool)
    requires MidInv(w) && w.s.alg == RR && Soon(w, p, from, bound, ahead)
    ensures var v := DrainAll(w);
            && |v.s.pcbs| >= |w.s.pcbs|
            && Soon(v, p, from, bound + Overtaking(w.s, p, ahead, |v.s.pcbs| - |w.s.pcbs|), ahead)
    decreases |w.inbox|
  {
    hide MidInv, Waits, Behind, DispatchedSince;
    if w.inbox == [] || !ValidMessage(w.inbox[0]) {
    } else {
      var u := ReceiveOne(w);
      RingOf(w);
      WaitsAfterReceive(w.s, w.inbox[0], p, bound - |w.dispatches|, ahead);
      ReceiveKeepsMid(w);
      DrainSoon(u, p, from, bound + Overtaking(w.s, p, ahead, 1), ahead);
      var v := DrainAll(w);
      var more := |v.s.pcbs| - |u.s.pcbs|;
      SoonLonger(v, p, from, bound + Overtaking(w.s, p, ahead, 1) + Overtaking(u.s, p, ahead, more),
                 bound + Overtaking(w.s, p, ahead, more + 1), ahead);
    }
  }

  lemma {:induction false} BegunSoon(w: World, c: nat, v: World, p: nat, from: nat, bound: int, ahead: bool)
    requires BegunShape(w, c, v) && v.s.queue == w.s.queue && w.s.queue.RingQueue? && WellFormed(w.s.queue.ring)
    requires Front(w.s.queue) == Some(c) && Soon(w, p, from, bound, ahead)
    ensures Soon(v, p, from, bound, ahead)
  {
    var n := |w.dispatches|;
    if DispatchedSince(w.dispatches, from, p) {
      var k :| from <= k < n && w.dispatches[k].slot == p;
      assert v.dispatches[k].slot == p;
    } else if p == c {
      assert v.dispatches[n].slot == p;
    } else {
      WaitsAfterDispatch(w.s, v.s, c, p, bound - n, ahead);
    }
  }

  lemma {:induction false} StartSoon(w: World, p: nat, from: nat, bound: int, ahead: bool)
    requires MidInv(w) && w.s.alg == RR && Soon(w, p, from, bound, ahead)
    ensures Bounded(w.s) && Soon(StartNext(w), p, from, bound, ahead)
  {
    hide LogRight, SpansRight, NothingLost, FinishedOnce, History, NonPreemptive, Running, Soon;
    InvBounded(w.s);
    if w.s.current == None {
      if Front(w.s.queue) == None {
        NothingToBegin(w);
      } else {
        var c := Front(w.s.queue).value;
        BegunSched(w);
        BegunHasShape(w, c);
        BegunSoon(w, c, StartNext(w), p, from, bound, ahead);
      }
    }
  }

  lemma {:induction false} HandleSoon(w: World, p: nat, from: nat, bound: int, ahead: bool)
    requires MidInv(w) && w.s.alg == RR && Soon(w, p, from, bound, ahead)
    requires w.s.current == None ==> Front(w.s.queue) == None
    ensures Bounded(w.s) && Soon(HandleCurrent(w), p, from, bound, ahead)
  {
    hide LogRight, SpansRight, NothingLost, FinishedOnce, TimeAddsUp;
    hide History, NonPreemptive, Running, Waits, DispatchedSince;
    RingOf(w);
    HandleIsStop(w);
    if MustStop(w.s) && !DispatchedSince(w.dispatches, from, p) {
      StoppedHasShape(w, w.s.current.value);
      WaitsAfterRotate(w.s, HandleCurrent(w).s, p, bound - |w.dispatches|, ahead);
    }
  }

  lemma {:induction false} EndSoon(w: World, c: nat, p: nat, from: nat, bound: int, ahead: bool)
    requires Inv(w) && w.s.alg == RR && w.s.current == Some(c) && w.s.pcbs[c].remaining == 1
    requires Soon(w, p, from, bound, ahead)
    ensures Bounded(w.s) && Soon(TickOnce(w), p, from, bound, ahead)
  {
    hide LogRight, SpansRight, NothingLost, FinishedOnce, TimeAddsUp, History, NonPreemptive, Waits, DispatchedSince;
    InvBounded(w.s);
    RingOf(w);
    EndHasShape(w, c);
    if !DispatchedSince(w.dispatches, from, p) {
      WaitsAfterRemove(w.s, TickOnce(w).s, p, bound - |w.dispatches|, ahead);
    }
  }

  lemma {:induction false} CountSoon(w: World, c: nat, p: nat, from: nat, bound: int, ahead: bool)
    requires Inv(w) && w.s.alg == RR && w.s.current == Some(c) && w.s.pcbs[c].remaining > 1
    requires Soon(w, p, from, bound, ahead)
    ensures Bounded(w.s) && Soon(TickOnce(w), p, from, bound, ahead)
  {
    hide LogRight, SpansRight, NothingLost, FinishedOnce, TimeAddsUp, History, NonPreemptive, Waits, DispatchedSince;
    CountHasShape(w, c);
    if !DispatchedSince(w.dispatches, from, p) {
      WaitsSame(w.s, TickOnce(w).s, p, bound - |w.dispatches|, ahead);
    }
  }

  lemma {:induction false} FlagsSoon(v: World, w: World, p: nat, from: nat, bound: int, ahead: bool)
    requires Soon(v, p, from, bound, ahead)
    requires w.s == v.s.(noMore := w.s.noMore) && w.dispatches == v.dispatches
    ensures Soon(w, p, from, bound, ahead)
  {
    if !DispatchedSince(v.dispatches, from, p) {
      WaitsSame(v.s, w.s, p, bound - |v.dispatches|, ahead);
    }
  }

  lemma {:induction false} TickSoon(w: World, p: nat, from: nat, bound: int, ahead: bool)
    requires Inv(w) && w.s.alg == RR && Soon(w, p, from, bound, ahead)
    ensures Bounded(w.s) && Soon(TickOnce(w), p, from, bound, ahead)
  {
    hide LogRight, SpansRight, NothingLost, FinishedOnce, TimeAddsUp, History, NonPreemptive, Soon;
    InvBounded(w.s);
    if w.s.current.Some? {
      var c := w.s.current.value;
      if w.s.pcbs[c].remaining > 1 {
        CountSoon(w, c, p, from, bound, ahead);
      } else {
        EndSoon(w, c, p, from, bound, ahead);
      }
    } else {
      FlagsSoon(w, TickOnce(w), p, from, bound, ahead);
    }
  }

  lemma {:induction false} PassSoon(w: World, p: nat, from: nat, bound: int, ahead: bool)
    requires Inv(w) && w.s.alg == RR && Soon(w, p, from, bound, ahead)
    ensures var v := PassOnce(w);
            Soon(v, p, from, bound + Overtaking(w.s, p, ahead, |v.s.pcbs| - |w.s.pcbs|), ahead)
  {
    hide Inv, Soon, Overtaking, PassOnce;
    if Done(w.s) {
      DoneIsQuiet(w);
      NothingOvertakes(w.s, p, ahead);
      FlagsSoon(w, PassOnce(w), p, from, bound, ahead);
    } else {
      PassReceived(w);
      DrainedSoon(w, p, from, bound, ahead);
      var longer := bound + Overtaking(w.s, p, ahead, |DrainAll(w).s.pcbs| - |w.s.pcbs|);
      RestSoon(w, p, from, longer, ahead);
    }
  }

  lemma {:induction false} DrainedSoon(w: World, p: nat, from: nat, bound: int, ahead: bool)
    requires Inv(w) && w.s.alg == RR && Soon(w, p, from, bound, ahead)
    ensures var a := DrainAll(w);
            Soon(a, p, from, bound + Overtaking(w.s, p, ahead, |a.s.pcbs| - |w.s.pcbs|), ahead)
  {
    hide Soon, Overtaking, DrainAll;
    DrainSoon(w, p, from, bound, ahead);
  }

  /** The rest of a pass, after the messages have been read. */
  lemma {:induction false} RestSoon(w: World, p: nat, from: nat, bound: int, ahead: bool)
    requires Inv(w) && !Done(w.s) && w.s.alg == RR && Soon(DrainAll(w), p, from, bound, ahead)
    ensures Soon(PassOnce(w), p, from, bound, ahead)
  {
    hide Inv, MidInv, Soon, PassOnce, DrainAll, StartNext, HandleCurrent;
    var a, b, c := PassParts(w);
    StartSoon(a, p, from, bound, ahead);
    HandleSoon(b, p, from, bound, ahead);
    FlagsSoon(c, PassOnce(w), p, from, bound, ahead);
  }

  lemma {:induction false} PassReceived(w: World)
    requires Inv(w) && !Done(w.s)
    ensures |PassOnce(w).s.pcbs| == |DrainAll(w).s.pcbs|
  {
    hide Inv, PassOnce;
    PassRemaining(w, PassOnce(w));
  }

  lemma NothingOvertakes(s: Sched, p: nat, ahead: bool)
    ensures Overtaking(s, p, ahead, 0) == 0
  {
  }

  /** How many of the processes received in a step overtake p. */
  ghost function Overtake(w: World, step: Step, p: nat, ahead: bool): int
    requires Inv(w) && Legal(w, step)
  {
    Overtaking(w.s, p, ahead, |Next(w, step).s.pcbs| - |w.s.pcbs|)
  }

  lemma {:induction false} LatePassSoon(w: World, late: seq<Sending>, announced: bool, p: nat,
          from: nat, bound: int, ahead: bool)
    requires Inv(w) && Legal(w, Pass(late, announced)) && w.s.alg == RR && Soon(w, p, from, bound, ahead)
    ensures Soon(PassWith(w, late, announced), p, from, bound + Overtake(w, Pass(late, announced), p, ahead), ahead)
  {
    hide Inv, MidInv, Soon, Overtaking, PassOnce, LogRight, SpansRight;
    PassWithIs(w, late, announced);
    var u := Announce(w, announced);
    FlagsSoon(w, u, p, from, bound, ahead);
    PassSoon(u, p, from, bound, ahead);
    var more := Overtake(w, Pass(late, announced), p, ahead);
    FlagsSoon(PassOnce(u), PassWith(w, late, announced), p, from, bound + more, ahead);
  }

  lemma {:induction false} NextSoon(w: World, step: Step, p: nat, from: nat, bound: int, ahead: bool)
    requires Inv(w) && Legal(w, step) && w.s.alg == RR && Soon(w, p, from, bound, ahead)
    ensures Soon(Next(w, step), p, from, bound + Overtake(w, step, p, ahead), ahead)
  {
    hide Inv, MidInv, Soon, Overtaking, PassOnce, TickOnce;
    NothingOvertakes(w.s, p, ahead);
    match step
    case Pass(late, announced) => LatePassSoon(w, late, announced, p, from, bound, ahead);
    case Tick =>
      TickSoon(w, p, from, bound, ahead);
      TickReceives(w);
    case Arrive(_) => FlagsSoon(w, Next(w, step), p, from, bound, ahead);
    case Close => FlagsSoon(w, Next(w, step), p, from, bound, ahead);
  }

  lemma {:induction false} TickReceives(w: World)
    requires Inv(w) && w.polled
    ensures Bounded(w.s) && |w.procs| == |w.s.pcbs| && |TickOnce(w).s.pcbs| == |w.s.pcbs|
  {
    InvBounded(w.s);
    if w.s.current.Some? {
      var c := w.s.current.value;
      if w.s.pcbs[c].remaining > 1 {
        CountHasShape(w, c);
      } else {
        EndHasShape(w, c);
      }
    }
  }

  /** How many of the processes received in a run overtake p, since it stands behind the seam when they are received. */
  ghost function Overtakers(w: World, steps: seq<Step>, p: nat, ahead: bool): int
    requires Inv(w) && LegalRun(w, steps)
    decreases |steps|
  {
    if steps == [] then 0
    else Overtake(w, steps[0], p, ahead) + Overtakers(Next(w, steps[0]), steps[1..], p, ahead)
  }

  lemma {:induction false} NobodyOvertakes(w: World, steps: seq<Step>, p: nat)
    requires Inv(w) && LegalRun(w, steps)
    ensures Overtakers(w, steps, p, true) == 0
    decreases |steps|
  {
    if steps == [] {
    } else {
      NobodyOvertakes(Next(w, steps[0]), steps[1..], p);
    }
  }

  lemma {:induction false} RunSoon(w: World, steps: seq<Step>, p: nat, from: nat, bound: int, ahead: bool)
    requires Inv(w) && LegalRun(w, steps) && w.s.alg == RR && Soon(w, p, from, bound, ahead)
    ensures Soon(After(w, steps), p, from, bound + Overtakers(w, steps, p, ahead), ahead)
    decreases |steps|
  {
    hide Inv, Soon, Legal, Overtake;
    if steps == [] {
    } else {
      NextSoon(w, steps[0], p, from, bound, ahead);
      RunSoon(Next(w, steps[0]), steps[1..], p, from, bound + Overtake(w, steps[0], p, ahead), ahead);
    }
  }

  /**
    From any state on, as long as the process at index i of the ring is not dispatched, there are at most
    as many dispatches as its rank, and one more for each process received while it stands behind the
    seam. Ahead of the seam newcomers do not count.
   */
  lemma {:induction false} RingWait(w: World, p: nat, i: nat, steps: seq<Step>)
    requires Inv(w) && LegalRun(w, steps) && w.s.alg == RR && w.s.current != Some(p)
    requires w.s.queue.RingQueue? && i < |w.s.queue.ring.items| && w.s.queue.ring.items[i] == p
    ensures var v, rank := After(w, steps), Rank(w.s.queue.ring, i, w.s.current.Some?);
            || DispatchedSince(v.dispatches, |w.dispatches|, p)
            || (&& |v.dispatches| - |w.dispatches| <= rank + Overtakers(w, steps, p, false)
                && (i >= w.s.queue.ring.cursor ==> |v.dispatches| - |w.dispatches| <= rank))
  {
    hide Inv, Legal, LegalRun, After, DispatchedSince;
    WaitFrom(w, p, i, steps, false);
    if i >= w.s.queue.ring.cursor {
      WaitFrom(w, p, i, steps, true);
      NobodyOvertakes(w, steps, p);
    }
  }

  lemma {:induction false} WaitFrom(w: World, p: nat, i: nat, steps: seq<Step>, ahead: bool)
    requires Inv(w) && LegalRun(w, steps) && w.s.alg == RR
    requires w.s.queue.RingQueue? && i < |w.s.queue.ring.items|
    requires Stands(w.s, p, i, Rank(w.s.queue.ring, i, w.s.current.Some?), ahead)
    ensures var v, rank := After(w, steps), Rank(w.s.queue.ring, i, w.s.current.Some?);
            || DispatchedSince(v.dispatches, |w.dispatches|, p)
            || |v.dispatches| - |w.dispatches| <= rank + Overtakers(w, steps, p, ahead)
  {
    hide Inv, Legal, Stands, DispatchedSince;
    var rank, n := Rank(w.s.queue.ring, i, w.s.current.Some?), |w.dispatches|;
    assert Waits(w.s, p, rank, ahead);
    RunSoon(w, steps, p, n, rank + n, ahead);
    SoonMeans(After(w, steps), p, n, rank + n + Overtakers(w, steps, p, ahead), ahead);
  }

  lemma {:induction false} SoonMeans(v: World, p: nat, from: nat, bound: int, ahead: bool)
    requires Inv(v) && v.s.alg == RR && Soon(v, p, from, bound, ahead)
    ensures DispatchedSince(v.dispatches, from, p) || |v.dispatches| <= bound
  {
    RingOf(v);
    if !DispatchedSince(v.dispatches, from, p) {
      var m := bound - |v.dispatches|;
      var i: nat :| Stands(v.s, p, i, m, ahead);
      if v.s.current.Some? {
        assert i != v.s.queue.ring.cursor;
      }
      assert Rank(v.s.queue.ring, i, v.s.current.Some?) >= 0;
    }
  }
}
