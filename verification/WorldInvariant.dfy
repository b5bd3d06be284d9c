/**
  Every step of the world keeps the invariants, so every run does.
 */
module WorldInvariant {
  import opened Options
  import opened ReadyQueue
  import opened Processes
  import opened SchedulerModel
  import opened UserProcess
  import opened World

  /** The invariant inside a pass of the main loop, where newcomers may stand before the running process. */
  ghost predicate MidInv(w: World) {
    && SchedInv(w.s) && (w.s.alg == RR ==> FrontInv(w.s))
    && Lockstep(w) && History(w) && Running(w) && NonPreemptive(w.s) && TimeAddsUp(w)
    && LogRight(w) && FinishedOnce(w.s) && SpansRight(w) && NothingLost(w)
  }

  /** t has the processes of s, and perhaps more. */
  ghost predicate SameProcesses(s: Sched, t: Sched) {
    && |s.pcbs| <= |t.pcbs|
    && forall i :: 0 <= i < |s.pcbs| ==> t.pcbs[i].process == s.pcbs[i].process && t.pcbs[i].pid == s.pcbs[i].pid
  }

  ghost predicate Extends(t: seq<Option<nat>>, u: seq<Option<nat>>) {
    |t| <= |u| && u[..|t|] == t
  }

  // ---------- entries of the logs stay right ----------

  lemma EventStays(t: seq<Option<nat>>, u: seq<Option<nat>>, p: Process, e: Event)
    requires EventRight(t, p, e) && Extends(t, u)
    ensures EventRight(u, p, e)
  {
    assert u[..e.time] == t[..e.time];
  }

  lemma LogStays(v: World, w: World)
    requires LogRight(v) && SameProcesses(v.s, w.s) && Extends(v.timeline, w.timeline)
    requires w.s.log == v.s.log
    ensures LogRight(w)
  {
    forall k | 0 <= k < |w.s.log|
      ensures w.s.log[k].slot < |w.s.pcbs|
      ensures EventRight(w.timeline, w.s.pcbs[w.s.log[k].slot].process, w.s.log[k])
    {
      EventStays(v.timeline, w.timeline, v.s.pcbs[v.s.log[k].slot].process, v.s.log[k]);
    }
  }

  lemma LogGrows(v: World, w: World, e: Event)
    requires LogRight(v) && SameProcesses(v.s, w.s) && Extends(v.timeline, w.timeline)
    requires w.s.log == v.s.log + [e] && e.slot < |w.s.pcbs|
    requires EventRight(w.timeline, w.s.pcbs[e.slot].process, e)
    ensures LogRight(w)
  {
    LogStays(v, w.(s := w.s.(log := v.s.log)));
  }

  lemma SpanStays(alg: Algorithm, q: int, t: seq<Option<nat>>, u: seq<Option<nat>>, a: seq<Pcb>, b: seq<Pcb>, x: Span)
    requires SpanRight(alg, q, t, a, x) && Extends(t, u)
    requires |a| <= |b| && forall i :: 0 <= i < |a| ==> b[i].process == a[i].process
    ensures SpanRight(alg, q, u, b, x)
  {
    if x.Run? {
      assert u[..x.to] == t[..x.to];
    }
  }

  lemma SpansStay(v: World, w: World)
    requires SpansRight(v) && SameProcesses(v.s, w.s) && Extends(v.timeline, w.timeline)
    requires w.s.spans == v.s.spans && w.s.alg == v.s.alg && w.s.quantum == v.s.quantum
    ensures SpansRight(w)
  {
    forall k | 0 <= k < |w.s.spans|
      ensures SpanRight(w.s.alg, w.s.quantum, w.timeline, w.s.pcbs, w.s.spans[k])
    {
      SpanStays(v.s.alg, v.s.quantum, v.timeline, w.timeline, v.s.pcbs, w.s.pcbs, v.s.spans[k]);
    }
  }

  lemma SpansGrow(v: World, w: World, x: Span)
    requires SpansRight(v) && SameProcesses(v.s, w.s) && Extends(v.timeline, w.timeline)
    requires w.s.spans == v.s.spans + [x] && w.s.alg == v.s.alg && w.s.quantum == v.s.quantum
    requires SpanRight(w.s.alg, w.s.quantum, w.timeline, w.s.pcbs, x)
    ensures SpansRight(w)
  {
    SpansStay(v, w.(s := w.s.(spans := v.s.spans)));
  }

  lemma FinishedGrows(log: seq<Event>, e: Event, i: nat)
    ensures FinishedLines(log + [e], i) == FinishedLines(log, i) + (if e.slot == i && e.state == Finished then 1 else 0)
  {
    var u := log + [e];
    assert u[..|u| - 1] == log && u[|u| - 1] == e;
  }

  lemma {:induction false} NoLines(log: seq<Event>, i: nat)
    requires forall k :: 0 <= k < |log| ==> log[k].slot != i
    ensures FinishedLines(log, i) == 0
  {
    if log == [] {
    } else {
      NoLines(log[..|log| - 1], i);
    }
  }

  lemma SameSent(a: seq<Pcb>, b: seq<Pcb>)
    requires |a| == |b| && forall i :: 0 <= i < |a| ==> b[i].process == a[i].process && b[i].pid == a[i].pid
    ensures AsSent(a) == AsSent(b)
  {
  }

  // ---------- a message is received ----------

  lemma ReceiveHistory(w: World)
    requires w.inbox != [] && History(w)
    ensures History(ReceiveOne(w))
  {
    var v := ReceiveOne(w);
    var n := |w.s.pcbs|;
    NeverRan(w.timeline, n);
    var a := w.inbox[0].process.arrival;
    NeverRan(w.timeline[..a], n);
    forall i | 0 <= i < |v.s.pcbs|
      ensures PcbRight(v.timeline, v.s.pcbs[i], i)
    {
      if i < n {
        assert PcbRight(w.timeline, w.s.pcbs[i], i);
      }
    }
  }

  lemma ReceiveFinished(s: Sched, m: Pcb)
    requires FinishedOnce(s) && m.remaining > 0
    ensures FinishedOnce(Receive(s, m))
  {
    NoLines(s.log, |s.pcbs|);
  }

  lemma ReceiveNothingLost(w: World)
    requires w.inbox != [] && ValidMessage(w.inbox[0]) && NothingLost(w)
    ensures NothingLost(ReceiveOne(w))
  {
    var m := w.inbox[0];
    assert AsSent(w.s.pcbs + [m]) == AsSent(w.s.pcbs) + [m];
    assert ValidOnes(w.inbox) == [m] + ValidOnes(w.inbox[1..]);
  }

  lemma ReceiveKeepsMid(w: World)
    requires w.inbox != [] && ValidMessage(w.inbox[0]) && MidInv(w)
    ensures MidInv(ReceiveOne(w))
  {
    hide LogRight, SpansRight, FinishedOnce;
    var v := ReceiveOne(w);
    assert FreshPcb(w.inbox[0]);
    ReceiveKeeps(w.s, w.inbox[0]);
    ReceiveHistory(w);
    ReceiveFinished(w.s, w.inbox[0]);
    ReceiveNothingLost(w);
    LogStays(w, v);
    SpansStay(w, v);
  }

  lemma DropInvalid(w: World)
    requires w.inbox != [] && !ValidMessage(w.inbox[0]) && MidInv(w)
    ensures MidInv(w.(inbox := w.inbox[1..]))
  {
    var v := w.(inbox := w.inbox[1..]);
    assert ValidOnes(w.inbox) == ValidOnes(w.inbox[1..]);
    LogStays(w, v);
    SpansStay(w, v);
  }

  lemma {:induction false} DrainKeepsMid(w: World)
    requires MidInv(w)
    ensures MidInv(DrainAll(w))
    decreases |w.inbox|
  {
    if w.inbox == [] {
    } else {
      if ValidMessage(w.inbox[0]) {
        ReceiveKeepsMid(w);
        DrainKeepsMid(ReceiveOne(w));
      } else {
        DropInvalid(w);
      }
    }
  }

  // ---------- the front of the queue is dispatched ----------

  /** The scheduler right after the dispatch of the front of the queue. */
  ghost function Begun(w: World): Sched
    requires Bounded(w.s)
  {
    Schedule(ChargeIdle(w.s, w.clock), w.clock)
  }

  lemma NothingToBegin(w: World)
    requires MidInv(w) && w.s.current == None && Front(w.s.queue) == None
    ensures Bounded(w.s) && StartNext(w) == w
  {
    FrontWaits(w.s);
  }

  lemma BegunSched(w: World)
    requires SchedInv(w.s) && w.s.current == None && Front(w.s.queue).Some?
    ensures Bounded(w.s) && SchedInv(Begun(w)) && FrontInv(Begun(w))
    ensures Begun(w).current == Front(w.s.queue)
  {
    FrontWaits(w.s);
    ChargeIdleKeeps(w.s, w.clock);
    ScheduleKeeps(ChargeIdle(w.s, w.clock), w.clock);
  }

  /** What is written as the waiting time is the number of units spent waiting. */
  lemma WaitIsRight(t: seq<Option<nat>>, p: Pcb, i: nat)
    requires PcbRight(t, p, i) && PcbInv(p)
    ensures Dispatched(p, |t|).waitTime == Waited(t, p.process.arrival, i)
  {
    RanPlusWaited(t, p.process.arrival, i);
  }

  /** v is w after the dispatch of process c; nothing is said about the queue. */
  ghost predicate BegunShape(w: World, c: nat, v: World) {
    && c < |w.s.pcbs| == |w.procs| && w.s.current == None && w.s.pcbs[c].remaining > 0
    && w.s.lastEnd <= w.clock
    && var p := Dispatched(w.s.pcbs[c], w.clock);
    && v == w.(
         s := w.s.(queue := v.s.queue,
                   pcbs := w.s.pcbs[c := p],
                   current := Some(c),
                   lastRemain := p.remaining,
                   logStart := w.clock,
                   idle := w.s.idle + (w.clock - w.s.lastEnd),
                   log := w.s.log + [Event(w.clock, c, p.state, p.remaining, p.waitTime, 0)],
                   spans := if w.clock > w.s.lastEnd then w.s.spans + [Idle(w.s.lastEnd, w.clock)] else w.s.spans),
         procs := w.procs[c := Continue(w.procs[c], w.clock)],
         dispatches := w.dispatches + [Dispatch(c, |w.s.pcbs|, Unfinished(w.s))])
  }

  lemma BegunHasShape(w: World, c: nat)
    requires SchedInv(w.s) && Lockstep(w) && w.s.lastEnd <= w.clock
    requires w.s.current == None && Front(w.s.queue) == Some(c)
    ensures Bounded(w.s) && BegunShape(w, c, Commit(w, Begun(w)))
  {
    FrontWaits(w.s);
    assert Unfinished(Begun(w)) == Unfinished(w.s);
  }

  lemma BegunRunning(w: World, c: nat, v: World)
    requires BegunShape(w, c, v) && History(w) && NonPreemptive(w.s) && PcbInv(w.s.pcbs[c])
    requires w.s.quantum >= 1
    ensures Running(v) && NonPreemptive(v.s)
  {
    assert PcbRight(w.timeline, w.s.pcbs[c], c);
    WaitIsRight(w.timeline, w.s.pcbs[c], c);
  }

  lemma BegunHistory(w: World, c: nat, v: World)
    requires BegunShape(w, c, v) && History(w) && Lockstep(w)
    ensures History(v) && Lockstep(v)
  {
    forall i | 0 <= i < |v.s.pcbs|
      ensures PcbRight(v.timeline, v.s.pcbs[i], i)
    {
      assert PcbRight(w.timeline, w.s.pcbs[i], i);
    }
  }

  lemma BegunLogs(w: World, c: nat, v: World)
    requires BegunShape(w, c, v) && History(w) && PcbInv(w.s.pcbs[c]) && TimeAddsUp(w)
    requires LogRight(w) && SpansRight(w)
    ensures LogRight(v) && SpansRight(v)
  {
    assert PcbRight(w.timeline, w.s.pcbs[c], c);
    WaitIsRight(w.timeline, w.s.pcbs[c], c);
    assert w.timeline[..w.clock] == w.timeline;
    LogGrows(w, v, v.s.log[|w.s.log|]);
    if w.clock > w.s.lastEnd {
      SpansGrow(w, v, Idle(w.s.lastEnd, w.clock));
    } else {
      SpansStay(w, v);
    }
  }

  lemma BegunCounts(w: World, c: nat, v: World)
    requires BegunShape(w, c, v) && FinishedOnce(w.s) && TimeAddsUp(w)
    ensures FinishedOnce(v.s) && TimeAddsUp(v)
  {
    forall i | 0 <= i < |v.s.pcbs|
      ensures FinishedLines(v.s.log, i) == if v.s.pcbs[i].remaining == 0 then 1 else 0
    {
      FinishedGrows(w.s.log, v.s.log[|w.s.log|], i);
    }
    if w.clock > w.s.lastEnd {
      OneMoreSpan(w.s.spans, Idle(w.s.lastEnd, w.clock));
    }
  }

  lemma StartKeepsMid(w: World)
    requires MidInv(w)
    ensures Bounded(w.s) && MidInv(StartNext(w))
    ensures w.s.current == None ==> FrontInv(StartNext(w).s)
    ensures StartNext(w).s.current == None ==> Front(StartNext(w).s.queue) == None
  {
    hide LogRight, SpansRight, NothingLost, History, FinishedOnce, Running, NonPreemptive;
    InvBounded(w.s);
    if w.s.current == None {
      if Front(w.s.queue) == None {
        NothingToBegin(w);
      } else {
        var c := Front(w.s.queue).value;
        BegunSched(w);
        BegunHasShape(w, c);
        var v := StartNext(w);
        BegunRunning(w, c, v);
        BegunHistory(w, c, v);
        BegunLogs(w, c, v);
        BegunCounts(w, c, v);
        NothingLostStays(w, v);
      }
    }
  }

  // ---------- the running process is stopped ----------

  /** v is w after the running process c was stopped; nothing is said about the queue. */
  ghost predicate StoppedShape(w: World, c: nat, v: World) {
    && c < |w.s.pcbs| == |w.procs| && w.s.current == Some(c)
    && var p := w.s.pcbs[c];
    && p.remaining > 0
    && v == w.(
         s := w.s.(queue := v.s.queue,
                   pcbs := w.s.pcbs[c := p.(state := Stopped)],
                   current := None,
                   logStart := 0,
                   lastEnd := w.clock,
                   log := w.s.log + [Event(w.clock, c, Stopped, p.remaining, p.waitTime, 0)],
                   spans := w.s.spans + [Run(c, w.s.logStart, w.clock, p.remaining, false)]))
  }

  lemma StoppedLogs(w: World, c: nat, v: World)
    requires StoppedShape(w, c, v) && History(w) && Running(w) && w.s.alg != HPF
    requires w.s.alg == RR ==> w.s.lastRemain - w.s.pcbs[c].remaining == w.s.quantum
    requires LogRight(w) && SpansRight(w)
    ensures LogRight(v) && SpansRight(v)
  {
    assert PcbRight(w.timeline, w.s.pcbs[c], c);
    assert w.timeline[..w.clock] == w.timeline;
    LogGrows(w, v, v.s.log[|w.s.log|]);
    SpansGrow(w, v, v.s.spans[|w.s.spans|]);
  }

  lemma StoppedCounts(w: World, c: nat, v: World)
    requires StoppedShape(w, c, v) && FinishedOnce(w.s) && TimeAddsUp(w) && Running(w)
    ensures FinishedOnce(v.s) && TimeAddsUp(v)
  {
    forall i | 0 <= i < |v.s.pcbs|
      ensures FinishedLines(v.s.log, i) == if v.s.pcbs[i].remaining == 0 then 1 else 0
    {
      FinishedGrows(w.s.log, v.s.log[|w.s.log|], i);
    }
    OneMoreSpan(w.s.spans, v.s.spans[|w.s.spans|]);
  }

  lemma StoppedHistory(w: World, c: nat, v: World)
    requires StoppedShape(w, c, v) && History(w)
    ensures History(v)
  {
    forall i | 0 <= i < |v.s.pcbs|
      ensures PcbRight(v.timeline, v.s.pcbs[i], i)
    {
      assert PcbRight(w.timeline, w.s.pcbs[i], i);
    }
  }

  lemma StoppedHasShape(w: World, c: nat)
    requires SchedInv(w.s) && Lockstep(w) && w.s.alg != HPF && w.s.current == Some(c)
    ensures Bounded(w.s) && StoppedShape(w, c, w.(s := Expire(w.s, w.clock)))
    ensures SchedInv(Expire(w.s, w.clock)) && FrontInv(Expire(w.s, w.clock))
  {
    ExpireKeeps(w.s, w.clock);
  }

  lemma NothingLostStays(v: World, w: World)
    requires NothingLost(v) && w.inbox == v.inbox && w.sent == v.sent
    requires |w.s.pcbs| == |v.s.pcbs| && SameProcesses(v.s, w.s)
    ensures NothingLost(w)
  {
    SameSent(v.s.pcbs, w.s.pcbs);
  }

  lemma StopKeepsInv(w: World, c: nat)
    requires MidInv(w) && w.s.alg != HPF && w.s.current == Some(c)
    requires w.s.alg == RR ==> w.s.lastRemain - w.s.pcbs[c].remaining == w.s.quantum
    ensures Bounded(w.s) && Inv(w.(s := Expire(w.s, w.clock)))
  {
    hide LogRight, SpansRight, NothingLost, FinishedOnce;
    StoppedHasShape(w, c);
    var v := w.(s := Expire(w.s, w.clock));
    StoppedLogs(w, c, v);
    StoppedCounts(w, c, v);
    StoppedHistory(w, c, v);
    NothingLostStays(w, v);
  }

  /** The clamp in the round-robin branch never changes the remaining time. */
  lemma ClampChangesNothing(w: World)
    requires MidInv(w) && w.s.alg == RR && Bounded(w.s) && QuantumOver(w.s)
    ensures var c := w.s.current.value;
            && w.s.pcbs[c].remaining == w.s.lastRemain - w.s.quantum
            && w.s.(pcbs := w.s.pcbs[c := w.s.pcbs[c].(remaining := w.s.lastRemain - w.s.quantum)]) == w.s
  {
    var c := w.s.current.value;
    assert w.s.pcbs[c := w.s.pcbs[c]] == w.s.pcbs;
  }

  /** The current process must make way: its quantum is over, or another one is in front. */
  ghost predicate MustStop(s: Sched)
    requires Bounded(s)
  {
    (s.alg == RR && QuantumOver(s)) || (s.alg == SRTN && s.current.Some? && Front(s.queue) != s.current)
  }

  lemma HandleIsStop(w: World)
    requires MidInv(w) && (w.s.current == None ==> Front(w.s.queue) == None)
    ensures Bounded(w.s)
    ensures HandleCurrent(w) == if MustStop(w.s) then w.(s := Expire(w.s, w.clock)) else w
  {
    InvBounded(w.s);
    if w.s.alg == RR && QuantumOver(w.s) {
      ClampChangesNothing(w);
    }
    if w.s.current.Some? {
      FrontWaits(w.s);
      if w.s.alg == SRTN {
        assert Waiting(w.s, w.s.current.value);
      }
    }
  }

  lemma HandleKeepsInv(w: World)
    requires MidInv(w) && (w.s.current == None ==> Front(w.s.queue) == None)
    ensures Bounded(w.s) && Inv(HandleCurrent(w))
  {
    HandleIsStop(w);
    if MustStop(w.s) {
      if w.s.alg == RR {
        ClampChangesNothing(w);
      }
      StopKeepsInv(w, w.s.current.value);
    }
  }

  // ---------- a unit of time passes ----------

  lemma ExtendsByOne(t: seq<Option<nat>>, x: Option<nat>)
    ensures Extends(t, t + [x])
  {
  }

  lemma PcbStays(t: seq<Option<nat>>, x: Option<nat>, p: Pcb, i: nat)
    requires PcbRight(t, p, i) && x != Some(i)
    ensures PcbRight(t + [x], p, i)
  {
    OneMore(t, x, 0, i);
    assert (t + [x])[..p.process.arrival] == t[..p.process.arrival];
  }

  lemma PcbTicks(t: seq<Option<nat>>, p: Pcb, q: Pcb, i: nat)
    requires PcbRight(t, p, i) && q.process == p.process && q.remaining == p.remaining - 1
    ensures PcbRight(t + [Some(i)], q, i)
  {
    OneMore(t, Some(i), 0, i);
    assert (t + [Some(i)])[..p.process.arrival] == t[..p.process.arrival];
  }

  lemma IdleTickKeeps(w: World)
    requires Inv(w) && w.s.current == None
    ensures Bounded(w.s) && Inv(TickOnce(w))
  {
    InvBounded(w.s);
    var v := TickOnce(w);
    ExtendsByOne(w.timeline, None);
    LogStays(w, v);
    SpansStay(w, v);
    OneMore(w.timeline, None, 0, 0);
    forall i | 0 <= i < |v.s.pcbs|
      ensures PcbRight(v.timeline, v.s.pcbs[i], i)
    {
      PcbStays(w.timeline, None, w.s.pcbs[i], i);
    }
  }

  /** v is w after process c ran for one unit; nothing is said about the queue and the bookkeeping in t. */
  ghost predicate RanShape(w: World, c: nat, v: World) {
    && c < |w.s.pcbs| == |w.procs| == |v.s.pcbs| && w.s.current == Some(c) && w.s.pcbs[c].remaining > 0
    && v == w.(s := v.s,
               clock := w.clock + 1,
               timeline := w.timeline + [Some(c)],
               polled := false,
               procs := w.procs[c := Proc(w.procs[c].left - 1, w.clock + 1)])
    && v.s.pcbs[c].process == w.s.pcbs[c].process && v.s.pcbs[c].pid == w.s.pcbs[c].pid
    && v.s.pcbs[c].remaining == w.s.pcbs[c].remaining - 1
    && v.s.pcbs[c].waitTime == w.s.pcbs[c].waitTime
    && (forall i :: 0 <= i < |w.s.pcbs| && i != c ==> v.s.pcbs[i] == w.s.pcbs[i])
  }

  lemma RanHistory(w: World, c: nat, v: World)
    requires RanShape(w, c, v) && History(w) && Lockstep(w) && (v.s.current == Some(c) || v.s.current == None)
    ensures History(v) && Lockstep(v)
  {
    forall i | 0 <= i < |v.s.pcbs|
      ensures PcbRight(v.timeline, v.s.pcbs[i], i)
    {
      if i == c {
        PcbTicks(w.timeline, w.s.pcbs[c], v.s.pcbs[c], c);
      } else {
        PcbStays(w.timeline, Some(c), w.s.pcbs[i], i);
      }
    }
  }

  ghost predicate CountShape(w: World, c: nat, v: World) {
    && RanShape(w, c, v)
    && v.s == w.s.(queue := v.s.queue, pcbs := v.s.pcbs)
  }

  lemma CountKeeps(w: World, c: nat, v: World)
    requires CountShape(w, c, v) && w.s.pcbs[c].remaining > 1 && w.polled
    requires History(w) && Running(w) && TimeAddsUp(w) && NonPreemptive(w.s) && FinishedOnce(w.s)
    ensures Running(v) && TimeAddsUp(v) && NonPreemptive(v.s) && FinishedOnce(v.s)
  {
    assert PcbRight(w.timeline, w.s.pcbs[c], c);
    OneMore(w.timeline, Some(c), w.s.pcbs[c].process.arrival, c);
  }

  /** v is w after the last unit of process c. */
  ghost predicate EndShape(w: World, c: nat, v: World) {
    && RanShape(w, c, v) && w.s.pcbs[c].remaining == 1
    && v.s == w.s.(queue := v.s.queue, pcbs := v.s.pcbs, current := None, lastRemain := 0, logStart := 0,
                   lastEnd := v.clock,
                   log := w.s.log + [Event(v.clock, c, Finished, 0, w.s.pcbs[c].waitTime,
                                           v.clock - w.s.pcbs[c].process.arrival)],
                   spans := w.s.spans + [Run(c, w.s.logStart, v.clock, 0, true)])
  }

  lemma EndCounts(w: World, c: nat, v: World)
    requires EndShape(w, c, v) && Running(w) && TimeAddsUp(w) && NonPreemptive(w.s) && FinishedOnce(w.s)
    ensures TimeAddsUp(v) && NonPreemptive(v.s) && FinishedOnce(v.s)
  {
    EndFinishes(w, c, v);
    hide FinishedOnce;
    OneMoreSpan(w.s.spans, v.s.spans[|w.s.spans|]);
    OneMore(w.timeline, Some(c), 0, 0);
  }

  lemma EndFinishes(w: World, c: nat, v: World)
    requires EndShape(w, c, v) && FinishedOnce(w.s)
    ensures FinishedOnce(v.s)
  {
    forall i | 0 <= i < |v.s.pcbs|
      ensures FinishedLines(v.s.log, i) == if v.s.pcbs[i].remaining == 0 then 1 else 0
    {
      FinishedGrows(w.s.log, v.s.log[|w.s.log|], i);
    }
  }

  /** The last line about a process: nothing left, and its turnaround is its waiting plus its run time. */
  lemma EndLogs(w: World, c: nat, v: World)
    requires EndShape(w, c, v) && History(w) && Running(w) && w.polled && LogRight(w) && SpansRight(w)
    ensures LogRight(v) && SpansRight(v)
  {
    var p := w.s.pcbs[c];
    assert PcbRight(w.timeline, p, c);
    PcbTicks(w.timeline, p, v.s.pcbs[c], c);
    OneMore(w.timeline, Some(c), p.process.arrival, c);
    RanPlusWaited(v.timeline, p.process.arrival, c);
    assert v.timeline[..v.clock] == v.timeline;
    ExtendsByOne(w.timeline, Some(c));
    LogGrows(w, v, v.s.log[|w.s.log|]);
    SpansGrow(w, v, v.s.spans[|w.s.spans|]);
  }

  lemma CountHasShape(w: World, c: nat)
    requires SchedInv(w.s) && FrontInv(w.s) && Lockstep(w) && w.s.current == Some(c) && w.s.pcbs[c].remaining > 1
    ensures Bounded(w.s) && CountShape(w, c, TickOnce(w))
    ensures SchedInv(TickOnce(w).s) && FrontInv(TickOnce(w).s)
  {
    CountTickKeeps(w.s);
  }

  lemma EndHasShape(w: World, c: nat)
    requires Bounded(w.s) && Lockstep(w) && w.s.current == Some(c) && w.s.pcbs[c].remaining == 1
    ensures EndShape(w, c, TickOnce(w)) && TickOnce(w).s == Terminate(w.s, w.clock + 1)
  {
    assert w.procs[c].left == 1 && w.procs[c].lastClk == w.clock;
  }

  lemma CountTickInv(w: World, c: nat)
    requires Inv(w) && w.s.current == Some(c) && w.polled && w.s.pcbs[c].remaining > 1
    ensures Bounded(w.s) && Inv(TickOnce(w))
  {
    InvBounded(w.s);
    ExtendsByOne(w.timeline, Some(c));
    var v := TickOnce(w);
    CountHasShape(w, c);
    CountKeeps(w, c, v);
    LogStays(w, v);
    SpansStay(w, v);
    RanHistory(w, c, v);
    NothingLostStays(w, v);
  }

  lemma EndTickInv(w: World, c: nat)
    requires Inv(w) && w.s.current == Some(c) && w.polled && w.s.pcbs[c].remaining == 1
    ensures Bounded(w.s) && Inv(TickOnce(w))
  {
    hide LogRight, SpansRight, NothingLost, TimeAddsUp, History, FinishedOnce;
    InvBounded(w.s);
    var v := TickOnce(w);
    TerminateKeeps(w.s, w.clock + 1);
    EndHasShape(w, c);
    EndCounts(w, c, v);
    EndLogs(w, c, v);
    RanHistory(w, c, v);
    NothingLostStays(w, v);
  }

  lemma TickKeepsInv(w: World)
    requires Inv(w) && w.polled
    ensures Bounded(w.s) && Inv(TickOnce(w))
  {
    if w.s.current == None {
      IdleTickKeeps(w);
    } else {
      var c := w.s.current.value;
      if w.s.pcbs[c].remaining > 1 {
        CountTickInv(w, c);
      } else {
        EndTickInv(w, c);
      }
    }
  }

  // ---------- the end of a pass, and messages ----------

  /** The end-of-input flag and the environment's own flags do not matter to the invariant. */
  lemma FlagsKeepInv(w: World, v: World)
    requires Inv(w) && v == w.(s := w.s.(noMore := v.s.noMore), closed := v.closed, polled := v.polled)
    requires w.s.alg == RR && v.polled && w.s.current.Some? ==>
               w.s.lastRemain - w.s.pcbs[w.s.current.value].remaining < w.s.quantum
    ensures Inv(v)
  {
    hide LogRight, SpansRight;
    forall x
      ensures x in Wanted(v.s) <==> x in Wanted(w.s)
    {
      WantedNode(v.s, x);
      WantedNode(w.s, x);
    }
    assert Wanted(v.s) == Wanted(w.s);
    LogStays(w, v);
    SpansStay(w, v);
  }

  lemma {:induction false} ValidOnesAppend(ms: seq<Pcb>, m: Pcb)
    ensures ValidOnes(ms + [m]) == ValidOnes(ms) + (if ValidMessage(m) then [m] else [])
  {
    hide ValidMessage;
    if ms == [] {
      assert [m][1..] == [] && [] + [m] == [m];
    } else {
      var first := if ValidMessage(ms[0]) then [ms[0]] else [];
      var last := if ValidMessage(m) then [m] else [];
      assert (ms + [m])[1..] == ms[1..] + [m] && (ms + [m])[0] == ms[0];
      ValidOnesAppend(ms[1..], m);
      assert first + (ValidOnes(ms[1..]) + last) == (first + ValidOnes(ms[1..])) + last;
    }
  }

  lemma ArriveNothingLost(w: World, m: Pcb)
    requires NothingLost(w) && m == NewPcb(m.pid, m.process)
    ensures NothingLost(w.(inbox := w.inbox + [m], sent := w.sent + [m]))
  {
    ValidOnesAppend(w.inbox, m);
    ValidOnesAppend(w.sent, m);
  }

  lemma ArriveKeepsInv(w: World, m: Pcb)
    requires Inv(w) && m == NewPcb(m.pid, m.process) && 0 <= m.process.arrival <= w.clock
    ensures Inv(w.(inbox := w.inbox + [m], sent := w.sent + [m]))
  {
    var v := w.(inbox := w.inbox + [m], sent := w.sent + [m]);
    ArriveNothingLost(w, m);
    LogStays(w, v);
    SpansStay(w, v);
  }

  lemma StartInv(alg: Algorithm, quantum: int, origin: nat)
    requires quantum >= 1
    ensures Inv(Start(alg, quantum, origin))
  {
    InitialInv(alg, quantum, origin);
    AllIdle(origin);
  }

  /** After a pass the running process still has some of its quantum. */
  lemma SliceLeft(w: World)
    requires MidInv(w) && (w.s.current == None ==> Front(w.s.queue) == None)
    ensures Bounded(w.s)
    ensures var s := HandleCurrent(w).s;
            s.alg == RR && s.current.Some? ==>
              s.current.value < |s.pcbs| && s.lastRemain - s.pcbs[s.current.value].remaining < s.quantum
  {
    HandleIsStop(w);
  }
}
