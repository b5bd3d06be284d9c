/**
  What holds of every run, from the start of the scheduler on, whatever arrives and whenever.
 */
module RunResults {
  import opened Options
  import opened ReadyQueue
  import opened Processes
  import opened SchedulerModel
  import opened UserProcess
  import opened World
  import opened WorldRuns
  import opened SrtnOptimal
  import opened Termination
  import HeapSpec

  /** A world that a run from the start of the scheduler can reach. */
  ghost predicate Reachable(w: World) {
    exists alg: Algorithm, quantum: int, origin: nat, steps: seq<Step> ::
      ReachedBy(w, alg, quantum, origin, steps)
  }

  ghost predicate ReachedBy(w: World, alg: Algorithm, quantum: int, origin: nat, steps: seq<Step>) {
    quantum >= 1 && LegalRun(Begin(alg, quantum, origin), steps) && w == After(Begin(alg, quantum, origin), steps)
  }

  lemma ReachableInv(w: World)
    requires Reachable(w)
    ensures Inv(w)
  {
    var alg, quantum, origin: nat, steps :| ReachedBy(w, alg, quantum, origin, steps);
  }

  // ---------- the queue and the running process ----------

  /** Under RR and SRTN the running process is the front of the queue, so termination removes exactly it. */
  lemma RunningIsFront(w: World, c: nat)
    requires Reachable(w) && w.s.current == Some(c) && w.s.alg != HPF
    ensures Front(w.s.queue) == Some(c) && FrontNode(w.s.queue) == HeapSpec.PNode(c, Key(w.s, c))
  {
    ReachableInv(w);
    FrontWaits(w.s);
  }

  /** Under SRTN, whenever the clock can tick, nobody received has less time left than the running process. */
  lemma SrtnRunsShortest(w: World, c: nat, i: nat)
    requires Reachable(w) && w.s.alg == SRTN && w.s.current == Some(c)
    requires i < |w.s.pcbs| && w.s.pcbs[i].remaining > 0
    ensures c < |w.s.pcbs| && w.s.pcbs[c].remaining <= w.s.pcbs[i].remaining
  {
    ReachableInv(w);
    ShortestRuns(w, c);
  }

  /** Each waiting process is in the queue once, and nothing else is: under HPF not the running process. */
  lemma QueueHoldsTheWaiting(w: World, n: HeapSpec.PNode<nat>)
    requires Reachable(w)
    ensures Bag(w.s.queue)[n] ==
            if n.item < |w.s.pcbs| && w.s.pcbs[n.item].remaining > 0
               && !(w.s.alg == HPF && w.s.current == Some(n.item)) && n.priority == Key(w.s, n.item)
            then 1 else 0
  {
    ReachableInv(w);
    WantedNode(w.s, n);
  }

  // ---------- time ----------

  lemma {:induction false} RanDuring(t: seq<Option<nat>>, a: nat, b: nat, c: nat)
    requires Shows(t, a, b, Some(c))
    ensures Ran(t[..b], c) == Ran(t[..a], c) + (b - a)
    decreases b
  {
    if a >= b {
    } else {
      RanDuring(t, a, b - 1, c);
      assert t[..b][..b - 1] == t[..b - 1];
    }
  }

  /** What a process had left at a given time. */
  ghost function LeftAt(w: World, c: nat, time: nat): int
    requires c < |w.s.pcbs| && time <= |w.timeline|
  {
    w.s.pcbs[c].process.runtime - Ran(w.timeline[..time], c)
  }

  /**
    Round-robin slices are exact: each lasts the quantum or what the process had left, whichever is
    less, and it ends in termination exactly when that was all the process had left.
   */
  lemma SlicesExact(w: World, k: nat)
    requires Reachable(w) && w.s.alg == RR && k < |w.s.spans| && w.s.spans[k].Run?
    ensures var x := w.s.spans[k];
            && x.slot < |w.s.pcbs| && 0 <= x.from <= x.to <= |w.timeline|
            && x.to - x.from == Min(w.s.quantum, LeftAt(w, x.slot, x.from))
            && (x.finished <==> LeftAt(w, x.slot, x.from) <= w.s.quantum)
            && forall u :: x.from <= u < x.to ==> w.timeline[u] == Some(x.slot)
  {
    hide SchedInv, FrontInv, Lockstep, Running, TimeAddsUp, FinishedOnce, LogRight, NothingLost, NonPreemptive;
    ReachableInv(w);
    var x := w.s.spans[k];
    assert SpanRight(w.s.alg, w.s.quantum, w.timeline, w.s.pcbs, x);
    RanDuring(w.timeline, x.from, x.to, x.slot);
  }

  /** HPF never preempts: a process that is not running has not begun or is finished. */
  lemma HpfNeverPreempts(w: World, i: nat)
    requires Reachable(w) && w.s.alg == HPF && i < |w.s.pcbs| && w.s.current != Some(i)
    ensures Ran(w.timeline, i) == 0 || Ran(w.timeline, i) == w.s.pcbs[i].process.runtime
  {
    ReachableInv(w);
    assert PcbRight(w.timeline, w.s.pcbs[i], i);
  }

  /** Under HPF a slice is the whole run of its process, all of it since the process had not run before. */
  lemma HpfSlicesAreWholeRuns(w: World, k: nat)
    requires Reachable(w) && w.s.alg == HPF && k < |w.s.spans| && w.s.spans[k].Run?
    ensures var x := w.s.spans[k];
            && x.slot < |w.s.pcbs| && 0 <= x.from <= x.to <= |w.timeline|
            && x.finished && x.to - x.from == w.s.pcbs[x.slot].process.runtime
            && Ran(w.timeline[..x.from], x.slot) == 0
  {
    ReachableInv(w);
    var x := w.s.spans[k];
    assert SpanRight(w.s.alg, w.s.quantum, w.timeline, w.s.pcbs, x);
    RanDuring(w.timeline, x.from, x.to, x.slot);
  }

  /** Every unit since a process arrived was spent running or waiting, and its own counter shows the former. */
  lemma EveryUnitAccounted(w: World, i: nat)
    requires Reachable(w) && i < |w.s.pcbs|
    ensures i < |w.procs| && w.procs[i].left == w.s.pcbs[i].remaining
    ensures var p := w.s.pcbs[i];
            w.clock - p.process.arrival == Waited(w.timeline, p.process.arrival, i) + (p.process.runtime - p.remaining)
  {
    ReachableInv(w);
    assert PcbRight(w.timeline, w.s.pcbs[i], i);
    RanPlusWaited(w.timeline, w.s.pcbs[i].process.arrival, i);
  }

  /** The running process has the time left that the scheduler believes, and has counted up to the clock. */
  lemma RunningInStep(w: World, c: nat)
    requires Inv(w) && w.s.current == Some(c)
    ensures Bounded(w.s) && c < |w.procs| == |w.s.pcbs|
    ensures w.procs[c].left == w.s.pcbs[c].remaining >= 1 && w.procs[c].lastClk == w.clock
  {
    hide History, Running, NonPreemptive, TimeAddsUp, LogRight, FinishedOnce, SpansRight, NothingLost;
    hide FrontInv, PcbInv;
    InvBounded(w.s);
  }

  lemma TickPolls(w: World, c: nat)
    requires Bounded(w.s) && c < |w.procs| == |w.s.pcbs| && w.s.current == Some(c)
    requires w.procs[c].lastClk == w.clock
    ensures TickOnce(w).procs == w.procs[c := Poll(w.procs[c], w.clock + 1).0]
    ensures Poll(w.procs[c], w.clock + 1).1 == Some(if w.procs[c].left <= 1 then Usr1 else Usr2)
  {
    hide Terminate, CountTick, Bounded;
  }

  /**
    What a tick does to the running process is what the process does when it reads the new value of the
    clock, however often it reads it.
   */
  lemma {:induction false} TickIsReadings(w: World, c: nat, n: nat)
    requires Reachable(w) && w.s.current == Some(c) && n >= 1
    ensures Bounded(w.s) && c < |w.procs| == |w.s.pcbs|
    ensures var life := Lifetime(w.procs[c], Again(Read(w.clock + 1), n));
            && TickOnce(w).procs == w.procs[c := life.p]
            && life.sent == [if w.s.pcbs[c].remaining == 1 then Usr1 else Usr2]
  {
    hide Inv, Bounded, TickOnce, Poll, Lifetime;
    ReachableInv(w);
    RunningInStep(w, c);
    TickPolls(w, c);
    ReadingAgain(w.procs[c], w.clock + 1, n);
  }

  /** The wait_time written at a start or resumption counts the units since arrival in which the process did not run. */
  lemma LoggedWaitIsRight(w: World, k: nat)
    requires Reachable(w) && k < |w.s.log|
    ensures var e := w.s.log[k];
            && e.slot < |w.s.pcbs|
            && var p := w.s.pcbs[e.slot].process;
            && 0 <= p.arrival <= e.time <= |w.timeline|
            && e.wait == Waited(w.timeline[..e.time], p.arrival, e.slot)
            && e.remaining == LeftAt(w, e.slot, e.time)
            && e.time - p.arrival == e.wait + (p.runtime - e.remaining)
  {
    hide SchedInv, FrontInv, Lockstep, Running, TimeAddsUp, FinishedOnce, SpansRight, NothingLost, NonPreemptive;
    ReachableInv(w);
    var e := w.s.log[k];
    var p := w.s.pcbs[e.slot].process;
    assert EventRight(w.timeline, p, e);
    var t := w.timeline[..e.time];
    assert PcbRight(w.timeline, w.s.pcbs[e.slot], e.slot);
    assert t[..p.arrival] == w.timeline[..p.arrival];
    RanPlusWaited(t, p.arrival, e.slot);
  }

  /** At "finished" nothing is left, and turnaround is waiting time plus run time. */
  lemma TurnaroundAddsUp(w: World, k: nat)
    requires Reachable(w) && k < |w.s.log| && w.s.log[k].state == Finished
    ensures var e := w.s.log[k];
            && e.slot < |w.s.pcbs| && e.remaining == 0 && w.s.pcbs[e.slot].remaining == 0
            && e.turnaround == e.wait + w.s.pcbs[e.slot].process.runtime
            && e.turnaround == e.time - w.s.pcbs[e.slot].process.arrival
            && FinishedLines(w.s.log, e.slot) == 1
  {
    ReachableInv(w);
    var e := w.s.log[k];
    assert EventRight(w.timeline, w.s.pcbs[e.slot].process, e);
    FinishedLineCounts(w.s.log, k);
  }

  lemma {:induction false} FinishedLineCounts(log: seq<Event>, k: nat)
    requires k < |log| && log[k].state == Finished
    ensures FinishedLines(log, log[k].slot) >= 1
    decreases |log|
  {
    if k == |log| - 1 {
    } else {
      FinishedLineCounts(log[..|log| - 1], k);
    }
  }

  /** Start clock, idle time and closed slices make up the clock, except for the slice or pause under way. */
  lemma ClockAddsUp(w: World)
    requires Reachable(w)
    ensures w.origin + w.s.idle + SpanTotal(w.s.spans) == if w.s.current.Some? then w.s.logStart else w.s.lastEnd
    ensures w.s.current.Some? ==> IdleUnits(w.timeline) == w.origin + w.s.idle
  {
    ReachableInv(w);
  }

  /** What was sent in a run, in order. */
  ghost function Sendings(steps: seq<Step>): seq<Sending> {
    if steps == [] then []
    else
      (match steps[0]
       case Arrive(m) => [m]
       case Pass(late, _) => late
       case Tick => []
       case Close => []) + Sendings(steps[1..])
  }

  /** Those with a positive pid, id and run time. */
  ghost function Acceptable(xs: seq<Sending>): seq<Sending> {
    if xs == [] then []
    else
      (if xs[0].pid > 0 && xs[0].process.id > 0 && xs[0].process.runtime > 0 then [xs[0]] else [])
      + Acceptable(xs[1..])
  }

  lemma {:induction false} ValidPosted(xs: seq<Sending>)
    ensures |ValidOnes(Posted(xs))| == |Acceptable(xs)|
    ensures forall i :: 0 <= i < |Acceptable(xs)| ==>
              && ValidOnes(Posted(xs))[i].pid == Acceptable(xs)[i].pid
              && ValidOnes(Posted(xs))[i].process == Acceptable(xs)[i].process
    decreases |xs|
  {
    if xs == [] {
    } else {
      assert Posted(xs)[1..] == Posted(xs[1..]);
      ValidPosted(xs[1..]);
    }
  }

  lemma {:induction false} StepSends(w: World, step: Step)
    requires Inv(w) && Legal(w, step)
    ensures Next(w, step).sent == w.sent + Posted(Sendings([step]))
  {
    hide LogRight, SpansRight, NothingLost, FinishedOnce, TimeAddsUp, History, Running, NonPreemptive, Lockstep;
    hide PassOnce, SchedInv;
    assert [step][1..] == [];
    match step
    case Pass(late, announced) =>
      PassWithIs(w, late, announced);
      PassSends(Announce(w, announced));
      assert late + [] == late;
    case Tick => TickSends(w);
    case Arrive(m) => assert [m] + [] == [m];
    case Close =>
  }

  lemma {:induction false} PassSends(w: World)
    requires Inv(w)
    ensures PassOnce(w).sent == w.sent
  {
    if !Done(w.s) {
      PassFlags(w, PassOnce(w));
    }
  }

  lemma {:induction false} TickSends(w: World)
    requires Inv(w) && Legal(w, Tick)
    ensures Next(w, Tick).sent == w.sent
  {
    hide LogRight, SpansRight, NothingLost, FinishedOnce, TimeAddsUp, History, Running, NonPreemptive;
    InvBounded(w.s);
    TickShape(w, TickOnce(w));
  }

  lemma {:induction false} RunSends(w: World, steps: seq<Step>)
    requires Inv(w) && LegalRun(w, steps)
    ensures After(w, steps).sent == w.sent + Posted(Sendings(steps))
    decreases |steps|
  {
    if steps == [] {
      assert w.sent + Posted([]) == w.sent;
    } else {
      hide Inv, Legal, Next, Sendings, Posted;
      var a, b := Sendings([steps[0]]), Sendings(steps[1..]);
      StepSends(w, steps[0]);
      RunSends(Next(w, steps[0]), steps[1..]);
      SendingsFirst(steps);
      PostedBoth(w.sent, a, b);
    }
  }

  lemma SendingsFirst(steps: seq<Step>)
    requires steps != []
    ensures Sendings(steps) == Sendings([steps[0]]) + Sendings(steps[1..])
  {
    assert [steps[0]][1..] == [];
  }

  lemma PostedBoth(sent: seq<Pcb>, a: seq<Sending>, b: seq<Sending>)
    ensures sent + Posted(a + b) == (sent + Posted(a)) + Posted(b)
  {
  }

  /** In every run the i-th process received has the pid and the data of the i-th acceptable one that was sent. */
  lemma {:induction false} ReceivedAsSent(alg: Algorithm, quantum: int, origin: nat, steps: seq<Step>, i: nat)
    requires quantum >= 1 && LegalRun(Begin(alg, quantum, origin), steps)
    requires i < |After(Begin(alg, quantum, origin), steps).s.pcbs|
    ensures var pcb := After(Begin(alg, quantum, origin), steps).s.pcbs[i];
            && i < |Acceptable(Sendings(steps))|
            && pcb.pid == Acceptable(Sendings(steps))[i].pid
            && pcb.process == Acceptable(Sendings(steps))[i].process
  {
    hide Inv, Acceptable, Sendings;
    var b := Begin(alg, quantum, origin);
    var w := After(b, steps);
    RunSends(b, steps);
    assert w.sent == Posted(Sendings(steps));
    ValidPosted(Sendings(steps));
    ReceivedValid(w, i);
  }

  lemma {:induction false} ReceivedValid(w: World, i: nat)
    requires Inv(w) && i < |w.s.pcbs|
    ensures i < |ValidOnes(w.sent)|
    ensures ValidOnes(w.sent)[i].pid == w.s.pcbs[i].pid && ValidOnes(w.sent)[i].process == w.s.pcbs[i].process
  {
    assert AsSent(w.s.pcbs)[i] == NewPcb(w.s.pcbs[i].pid, w.s.pcbs[i].process);
  }

  /** The valid messages sent are, in order, those received and those still queued; nobody is received twice. */
  lemma NothingLostOrDoubled(w: World, i: nat)
    requires Reachable(w) && i < |w.s.pcbs|
    ensures i < |ValidOnes(w.sent)|
    ensures ValidOnes(w.sent)[i] == NewPcb(w.s.pcbs[i].pid, w.s.pcbs[i].process)
    ensures |ValidOnes(w.sent)| == |w.s.pcbs| + |ValidOnes(w.inbox)|
  {
    ReachableInv(w);
    assert AsSent(w.s.pcbs)[i] == NewPcb(w.s.pcbs[i].pid, w.s.pcbs[i].process);
  }
}
