/**
  The lines of scheduler.log about one process come in order: started, then stopped and resumed in
  turn, and at last finished.
 */
module Phases {
  import opened Options
  import opened ReadyQueue
  import opened Processes
  import opened SchedulerModel
  import opened World
  import opened WorldInvariant
  import opened WorldRuns

  /** The state in the last line about process i, or that of a process without a line. */
  ghost function LastPhase(log: seq<Event>, i: nat): Phase {
    if log == [] then Created
    else
      var e := log[|log| - 1];
      if e.slot == i then e.state else LastPhase(log[..|log| - 1], i)
  }

  /** The time of the last line that says that process i has started, or -1. */
  ghost function StartOf(log: seq<Event>, i: nat): int {
    if log == [] then -1
    else
      var e := log[|log| - 1];
      if e.slot == i && e.state == Started then e.time else StartOf(log[..|log| - 1], i)
  }

  /** What may be reported next. */
  ghost predicate Follows(before: Phase, after: Phase) {
    match after
    case Created => false
    case Started => before == Created
    case Resumed => before == Stopped
    case Stopped => before == Started || before == Resumed
    case Finished => before == Started || before == Resumed
  }

  ghost predicate InOrder(log: seq<Event>) {
    forall k :: 0 <= k < |log| ==> Follows(LastPhase(log[..k], log[k].slot), log[k].state)
  }

  /** The PCB says what the log says, and that a process runs. */
  ghost predicate PhaseRight(s: Sched, i: nat)
    requires i < |s.pcbs|
  {
    var p := s.pcbs[i];
    && p.state == LastPhase(s.log, i) && p.startTime == StartOf(s.log, i)
    && (p.startTime == -1 <==> p.state == Created)
    && (p.state == Started || p.state == Resumed <==> s.current == Some(i))
  }

  ghost predicate PhaseInv(s: Sched) {
    InOrder(s.log) && forall i :: 0 <= i < |s.pcbs| ==> PhaseRight(s, i)
  }

  // ---------- one more line ----------

  lemma OneMoreLine(log: seq<Event>, e: Event, i: nat)
    ensures LastPhase(log + [e], i) == if e.slot == i then e.state else LastPhase(log, i)
    ensures StartOf(log + [e], i) == if e.slot == i && e.state == Started then e.time else StartOf(log, i)
  {
    var u := log + [e];
    assert u[..|u| - 1] == log && u[|u| - 1] == e;
  }

  lemma StaysInOrder(log: seq<Event>, e: Event)
    requires InOrder(log) && Follows(LastPhase(log, e.slot), e.state)
    ensures InOrder(log + [e])
  {
    var u := log + [e];
    forall k | 0 <= k < |u|
      ensures Follows(LastPhase(u[..k], u[k].slot), u[k].state)
    {
      if k < |log| {
        assert u[..k] == log[..k];
      } else {
        assert u[..k] == log;
      }
    }
  }

  lemma {:induction false} NotInLog(log: seq<Event>, i: nat)
    requires forall k :: 0 <= k < |log| ==> log[k].slot != i
    ensures LastPhase(log, i) == Created && StartOf(log, i) == -1
    decreases |log|
  {
    if log == [] {
    } else {
      NotInLog(log[..|log| - 1], i);
    }
  }

  /** t reports one thing about process c, which now has this state; nobody else changes. */
  lemma LineAdded(s: Sched, t: Sched, c: nat, e: Event)
    requires PhaseInv(s) && c < |s.pcbs| == |t.pcbs| && e.slot == c && t.log == s.log + [e]
    requires forall i :: 0 <= i < |s.pcbs| && i != c ==>
               t.pcbs[i].state == s.pcbs[i].state && t.pcbs[i].startTime == s.pcbs[i].startTime
    requires forall i: nat :: i != c ==> (s.current == Some(i) <==> t.current == Some(i))
    requires Follows(s.pcbs[c].state, e.state) && t.pcbs[c].state == e.state
    requires t.pcbs[c].startTime == if e.state == Started then e.time else s.pcbs[c].startTime
    requires t.pcbs[c].startTime != -1
    requires e.state == Started || e.state == Resumed <==> t.current == Some(c)
    ensures PhaseInv(t)
  {
    assert PhaseRight(s, c);
    StaysInOrder(s.log, e);
    forall i | 0 <= i < |t.pcbs|
      ensures PhaseRight(t, i)
    {
      assert PhaseRight(s, i);
      OneMoreLine(s.log, e, i);
    }
  }

  // ---------- each part of a step ----------

  lemma ReceivePhases(w: World)
    requires w.inbox != [] && MidInv(w) && PhaseInv(w.s)
    ensures PhaseInv(ReceiveOne(w).s)
  {
    hide LogRight, SpansRight, NothingLost, TimeAddsUp, Running, NonPreemptive, Lockstep, QueueInv;
    var v, n := ReceiveOne(w), |w.s.pcbs|;
    assert FreshPcb(w.inbox[0]);
    NotInLog(w.s.log, n);
    forall i | 0 <= i < |v.s.pcbs|
      ensures PhaseRight(v.s, i)
    {
      if i < n {
        assert PhaseRight(w.s, i);
      }
    }
  }

  lemma {:induction false} DrainPhases(w: World)
    requires MidInv(w) && PhaseInv(w.s)
    ensures PhaseInv(DrainAll(w).s)
    decreases |w.inbox|
  {
    hide PhaseInv;
    if w.inbox == [] || !ValidMessage(w.inbox[0]) {
      SamePhases(w.s, DrainAll(w).s);
    } else {
      ReceiveKeepsMid(w);
      ReceivePhases(w);
      DrainPhases(ReceiveOne(w));
    }
  }

  lemma SamePhases(s: Sched, t: Sched)
    requires PhaseInv(s) && t.log == s.log && t.current == s.current && |t.pcbs| == |s.pcbs|
    requires forall i :: 0 <= i < |s.pcbs| ==>
               t.pcbs[i].state == s.pcbs[i].state && t.pcbs[i].startTime == s.pcbs[i].startTime
    ensures PhaseInv(t)
  {
    forall i | 0 <= i < |t.pcbs|
      ensures PhaseRight(t, i)
    {
      assert PhaseRight(s, i);
    }
  }

  lemma BegunPhases(w: World, c: nat, v: World)
    requires BegunShape(w, c, v) && PhaseInv(w.s) && PcbInv(w.s.pcbs[c])
    ensures PhaseInv(v.s)
  {
    assert PhaseRight(w.s, c);
    LineAdded(w.s, v.s, c, v.s.log[|w.s.log|]);
  }

  lemma StartPhases(w: World)
    requires MidInv(w) && PhaseInv(w.s)
    ensures Bounded(w.s) && PhaseInv(StartNext(w).s)
  {
    hide LogRight, SpansRight, NothingLost, History, FinishedOnce, Running, NonPreemptive, PhaseInv;
    InvBounded(w.s);
    if w.s.current == None {
      if Front(w.s.queue) == None {
        NothingToBegin(w);
      } else {
        var c := Front(w.s.queue).value;
        BegunHasShape(w, c);
        BegunPhases(w, c, StartNext(w));
      }
    }
  }

  lemma StoppedPhases(w: World, c: nat, v: World)
    requires StoppedShape(w, c, v) && PhaseInv(w.s)
    ensures PhaseInv(v.s)
  {
    assert PhaseRight(w.s, c);
    LineAdded(w.s, v.s, c, v.s.log[|w.s.log|]);
  }

  lemma HandlePhases(w: World)
    requires MidInv(w) && PhaseInv(w.s) && (w.s.current == None ==> Front(w.s.queue) == None)
    ensures Bounded(w.s) && PhaseInv(HandleCurrent(w).s)
  {
    hide LogRight, SpansRight, NothingLost, History, FinishedOnce, Running, NonPreemptive, PhaseInv;
    HandleIsStop(w);
    if MustStop(w.s) {
      StoppedHasShape(w, w.s.current.value);
      StoppedPhases(w, w.s.current.value, HandleCurrent(w));
    }
  }

  lemma EndPhases(w: World, c: nat, v: World)
    requires EndShape(w, c, v) && PhaseInv(w.s) && v.s.pcbs[c].state == Finished
    requires v.s.pcbs[c].startTime == w.s.pcbs[c].startTime
    ensures PhaseInv(v.s)
  {
    assert PhaseRight(w.s, c);
    LineAdded(w.s, v.s, c, v.s.log[|w.s.log|]);
  }

  lemma CountedSame(w: World, c: nat)
    requires Bounded(w.s) && |w.procs| == |w.s.pcbs| && CountShape(w, c, TickOnce(w)) && PhaseInv(w.s)
    requires w.procs[c].left > 1 && w.procs[c].lastClk == w.clock
    ensures PhaseInv(TickOnce(w).s)
  {
    SamePhases(w.s, TickOnce(w).s);
  }

  lemma TickPhases(w: World)
    requires Inv(w) && PhaseInv(w.s)
    ensures Bounded(w.s) && PhaseInv(TickOnce(w).s)
  {
    hide LogRight, SpansRight, NothingLost, History, FinishedOnce, Running, NonPreemptive, TimeAddsUp, PhaseInv;
    InvBounded(w.s);
    if w.s.current.Some? {
      var c := w.s.current.value;
      if w.s.pcbs[c].remaining > 1 {
        CountHasShape(w, c);
        CountedSame(w, c);
      } else {
        EndHasShape(w, c);
        EndPhases(w, c, TickOnce(w));
      }
    } else {
      SamePhases(w.s, TickOnce(w).s);
    }
  }

  lemma PassPhases(w: World)
    requires Inv(w) && PhaseInv(w.s)
    ensures PhaseInv(PassOnce(w).s)
  {
    hide PhaseInv;
    if Done(w.s) {
      SamePhases(w.s, PassOnce(w).s);
    } else {
      var a, b, c := PassParts(w);
      DrainPhases(w);
      StartPhases(a);
      HandlePhases(b);
      SamePhases(c.s, PassOnce(w).s);
    }
  }

  lemma {:induction false} NextPhases(w: World, step: Step)
    requires Inv(w) && PhaseInv(w.s) && Legal(w, step)
    ensures PhaseInv(Next(w, step).s)
  {
    hide PhaseInv, PassOnce, LogRight, SpansRight, NothingLost, FinishedOnce, TimeAddsUp, History, NonPreemptive;
    hide Running;
    match step
    case Pass(late, announced) =>
      PassWithIs(w, late, announced);
      PassPhases(Announce(w, announced));
    case Tick => TickPhases(w);
    case Arrive(_) =>
    case Close =>
  }

  lemma {:induction false} RunPhases(w: World, steps: seq<Step>)
    requires Inv(w) && PhaseInv(w.s) && LegalRun(w, steps)
    ensures PhaseInv(After(w, steps).s)
    decreases |steps|
  {
    hide Inv, Legal, PhaseInv;
    if steps == [] {
    } else {
      NextPhases(w, steps[0]);
      RunPhases(Next(w, steps[0]), steps[1..]);
    }
  }

  // ---------- the result ----------

  lemma {:induction false} NoLineBefore(log: seq<Event>, i: nat)
    requires forall k :: 0 <= k < |log| ==> log[k].state != Created
    ensures LastPhase(log, i) == Created <==> forall k :: 0 <= k < |log| ==> log[k].slot != i
    decreases |log|
  {
    if log == [] {
    } else {
      var n := |log| - 1;
      NoLineBefore(log[..n], i);
      assert forall k :: 0 <= k < n ==> log[..n][k] == log[k];
    }
  }

  lemma {:induction false} StartedAt(log: seq<Event>, k: nat)
    requires InOrder(log) && k < |log| && log[k].state == Started
    ensures StartOf(log, log[k].slot) == log[k].time
    decreases |log|
  {
    var n := |log| - 1;
    assert log == log[..n] + [log[n]];
    assert forall j :: 0 <= j < n ==> log[..n][..j] == log[..j];
    if k == n {
    } else {
      StartedAt(log[..n], k);
      assert log[..n] == log[..n][..n];
      StaysBegun(log[..n], k);
    }
  }

  /** Once a process has a line, it never is as if it had none. */
  lemma {:induction false} StaysBegun(log: seq<Event>, k: nat)
    requires InOrder(log) && k < |log|
    ensures LastPhase(log, log[k].slot) != Created
    decreases |log|
  {
    var n := |log| - 1;
    assert Follows(LastPhase(log[..n], log[n].slot), log[n].state);
    if log[n].slot == log[k].slot {
    } else {
      assert forall j :: 0 <= j < n ==> log[..n][..j] == log[..j];
      StaysBegun(log[..n], k);
    }
  }

  /**
    In every run a line says "started" exactly if it is the first about its process, and then shows the
    start time kept in the PCB; "resumed" only if the line before said "stopped"; "stopped" or "finished"
    only if it said "started" or "resumed". So after "finished" no line comes.
   */
  lemma {:induction false} LinesInOrder(alg: Algorithm, quantum: int, origin: nat, steps: seq<Step>, k: nat)
    requires quantum >= 1 && LegalRun(Begin(alg, quantum, origin), steps)
    requires k < |After(Begin(alg, quantum, origin), steps).s.log|
    ensures var s := After(Begin(alg, quantum, origin), steps).s;
            var e := s.log[k];
            var before := LastPhase(s.log[..k], e.slot);
            && e.slot < |s.pcbs|
            && (e.state == Started <==> forall j :: 0 <= j < k ==> s.log[j].slot != e.slot)
            && (e.state == Started ==> s.pcbs[e.slot].startTime == e.time)
            && (e.state == Resumed <==> before == Stopped)
            && (e.state == Stopped || e.state == Finished <==> before == Started || before == Resumed)
  {
    var b := Begin(alg, quantum, origin);
    NobodyYet(b);
    RunPhases(b, steps);
    LineInOrder(After(b, steps), k);
  }

  lemma NobodyYet(b: World)
    requires b.s.log == [] && b.s.pcbs == []
    ensures PhaseInv(b.s)
  {
  }

  lemma LineInOrder(w: World, k: nat)
    requires Inv(w) && PhaseInv(w.s) && k < |w.s.log|
    ensures var s := w.s;
            var e := s.log[k];
            var before := LastPhase(s.log[..k], e.slot);
            && e.slot < |s.pcbs|
            && (e.state == Started <==> forall j :: 0 <= j < k ==> s.log[j].slot != e.slot)
            && (e.state == Started ==> s.pcbs[e.slot].startTime == e.time)
            && (e.state == Resumed <==> before == Stopped)
            && (e.state == Stopped || e.state == Finished <==> before == Started || before == Resumed)
  {
    hide SchedInv, FrontInv, Lockstep, History, Running, NonPreemptive, TimeAddsUp, LogRight, SpansRight, NothingLost;
    var log := w.s.log;
    var e := log[k];
    assert Follows(LastPhase(log[..k], e.slot), e.state);
    forall j | 0 <= j < k
      ensures log[..k][j].state != Created
    {
      assert Follows(LastPhase(log[..j], log[j].slot), log[j].state);
    }
    NoLineBefore(log[..k], e.slot);
    assert forall j :: 0 <= j < k ==> log[..k][j] == log[j];
    if e.state == Started {
      StartedAt(log, k);
      assert PhaseRight(w.s, e.slot);
    }
  }
}
