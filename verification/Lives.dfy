/**
  What the scheduler and the clock do to each process, as the process sees it: it is continued when it is
  dispatched, and reads the clock while it runs. Its state in the world is what run_process makes of that.
 */
module Lives {
  import opened Options
  import opened ReadyQueue
  import opened SchedulerModel
  import opened UserProcess
  import opened World
  import opened WorldInvariant
  import opened WorldRuns
  import opened Quiescence

  /** What process c goes through in a step; it reads each value of the clock n times. */
  ghost function MomentsIn(w: World, step: Step, c: nat, n: nat): seq<Moment>
    requires Inv(w) && Legal(w, step)
  {
    match step
    case Pass(_, _) =>
      if w.s.current == None && Next(w, step).s.current == Some(c) then [Cont(w.clock)] + Again(Read(w.clock), n)
      else []
    case Tick => if w.s.current == Some(c) then Again(Read(w.clock + 1), n) else []
    case Arrive(_) => []
    case Close => []
  }

  ghost function MomentsOf(w: World, steps: seq<Step>, c: nat, n: nat): seq<Moment>
    requires Inv(w) && LegalRun(w, steps)
    decreases |steps|
  {
    if steps == [] then [] else MomentsIn(w, steps[0], c, n) + MomentsOf(Next(w, steps[0]), steps[1..], c, n)
  }

  /** Process c, or what it will be when it is forked with this run time. */
  ghost function ProcOf(w: World, c: nat, runtime: int): Proc {
    if c < |w.procs| then w.procs[c] else Proc(runtime, 0)
  }

  // ---------- each part of a step ----------

  lemma {:induction false} DrainForks(w: World)
    requires |w.procs| == |w.s.pcbs|
    ensures |DrainAll(w).procs| == |DrainAll(w).s.pcbs| >= |w.procs|
    ensures forall c :: 0 <= c < |DrainAll(w).procs| ==>
              DrainAll(w).procs[c] == ProcOf(w, c, DrainAll(w).s.pcbs[c].process.runtime)
    decreases |w.inbox|
  {
    if w.inbox == [] || !ValidMessage(w.inbox[0]) {
    } else {
      DrainForks(ReceiveOne(w));
      DrainKeepsCurrent(ReceiveOne(w));
    }
  }

  /** Only a dispatch touches a process in a pass: it is continued. */
  lemma StartContinues(a: World, b: World, c: nat)
    requires MidInv(a) && Bounded(a.s) && b == StartNext(a) && c < |a.procs| == |b.procs|
    ensures |b.s.pcbs| == |a.s.pcbs|
    ensures forall i :: 0 <= i < |a.s.pcbs| ==> b.s.pcbs[i].process == a.s.pcbs[i].process
    ensures b.procs[c] == if a.s.current == None && b.s.current == Some(c) then Proc(a.procs[c].left, a.clock)
                          else a.procs[c]
  {
    if a.s.current == None {
      if Front(a.s.queue) == None {
        NothingToBegin(a);
      } else {
        BegunHasShape(a, Front(a.s.queue).value);
      }
    }
  }

  lemma HandleTouchesNone(b: World, c: World)
    requires MidInv(b) && (b.s.current == None ==> Front(b.s.queue) == None) && Bounded(b.s) && c == HandleCurrent(b)
    ensures c.procs == b.procs && SameRemaining(b.s, c.s)
    ensures c.s.current == if MustStop(b.s) then None else b.s.current
  {
    HandleIsStop(b);
    if MustStop(b.s) {
      assert b.s.current.Some?;
    }
  }

  lemma StartLength(a: World)
    requires MidInv(a)
    ensures Bounded(a.s) && MidInv(StartNext(a)) && |StartNext(a).procs| == |a.procs| == |a.s.pcbs|
  {
    StartKeepsMid(a);
    InvBounded(a.s);
  }

  lemma {:induction false} PassContinues(w: World, c: nat)
    requires Inv(w) && !Done(w.s) && c < |PassOnce(w).procs|
    ensures |PassOnce(w).procs| == |PassOnce(w).s.pcbs|
    ensures var v := PassOnce(w);
            var p := ProcOf(w, c, v.s.pcbs[c].process.runtime);
            v.procs[c] == if w.s.current == None && v.s.current == Some(c) then Proc(p.left, w.clock) else p
  {
    hide Inv, LogRight, SpansRight, NothingLost, FinishedOnce, TimeAddsUp, History, Running, NonPreemptive;
    var a, b, d := PassParts(w);
    SameLength(w);
    DrainForks(w);
    DrainKeepsCurrent(w);
    StartLength(a);
    StartContinues(a, b, c);
    HandleTouchesNone(b, d);
    if a.s.current == None {
      IdleMiddle(a, b);
    } else {
      StartWhenRunning(a);
    }
  }

  lemma SameLength(w: World)
    requires Inv(w)
    ensures |w.procs| == |w.s.pcbs|
  {
  }

  // ---------- a step ----------

  lemma {:induction false} PassLives(w: World, late: seq<Sending>, announced: bool, c: nat, n: nat)
    requires Inv(w) && Legal(w, Pass(late, announced)) && c < |Next(w, Pass(late, announced)).s.pcbs|
    ensures var v := Next(w, Pass(late, announced));
            && |v.procs| == |v.s.pcbs|
            && v.procs[c] == Lifetime(ProcOf(w, c, v.s.pcbs[c].process.runtime),
                                      MomentsIn(w, Pass(late, announced), c, n)).p
  {
    hide Inv, PassOnce, Lifetime, Again, MomentsIn;
    PassWithIs(w, late, announced);
    var u := Announce(w, announced);
    SameLength(PassOnce(u));
    if Done(u.s) {
      DoneIsQuiet(u);
      NoMoments(w, Pass(late, announced), c, n);
    } else {
      PassContinues(u, c);
      if w.s.current == None && PassOnce(u).s.current == Some(c) {
        DispatchMoments(w, Pass(late, announced), c, n);
        StillToRun(u, c);
        AfterContinue(ProcOf(w, c, PassOnce(u).s.pcbs[c].process.runtime), w.clock, n, 1);
      } else {
        NoMoments(w, Pass(late, announced), c, n);
      }
    }
  }

  lemma DispatchMoments(w: World, step: Step, c: nat, n: nat)
    requires Inv(w) && Legal(w, step) && step.Pass? && w.s.current == None && Next(w, step).s.current == Some(c)
    ensures MomentsIn(w, step, c, n) == [Cont(w.clock)] + Again(Read(w.clock), n)
  {
  }

  lemma NoMoments(w: World, step: Step, c: nat, n: nat)
    requires Inv(w) && Legal(w, step) && step.Pass? && !(w.s.current == None && Next(w, step).s.current == Some(c))
    ensures MomentsIn(w, step, c, n) == [] && forall p :: Lifetime(p, MomentsIn(w, step, c, n)) == Life(p, [])
  {
  }

  lemma {:induction false} StillToRun(u: World, c: nat)
    requires Inv(u) && !Done(u.s) && u.s.current == None && PassOnce(u).s.current == Some(c)
    requires c < |PassOnce(u).procs| == |PassOnce(u).s.pcbs|
    ensures ProcOf(u, c, PassOnce(u).s.pcbs[c].process.runtime).left >= 1
  {
    PassContinues(u, c);
    var v := PassOnce(u);
    assert v.procs[c].left == v.s.pcbs[c].remaining;
  }

  lemma {:induction false} TickLives(w: World, c: nat, n: nat)
    requires Inv(w) && Legal(w, Tick) && c < |Next(w, Tick).s.pcbs| && n >= 1
    ensures var v := Next(w, Tick);
            && |v.procs| == |v.s.pcbs| && c < |w.procs|
            && v.procs[c] == Lifetime(w.procs[c], MomentsIn(w, Tick, c, n)).p
  {
    hide LogRight, SpansRight, NothingLost, FinishedOnce, TimeAddsUp, History, Running, NonPreemptive;
    hide FrontInv, Lifetime;
    InvBounded(w.s);
    SameLength(Next(w, Tick));
    if w.s.current == Some(c) {
      ReadingAgain(w.procs[c], w.clock + 1, n);
    } else {
      NothingHappens(w.procs[c]);
    }
  }

  lemma NothingHappens(p: Proc)
    ensures Lifetime(p, []) == Life(p, [])
  {
  }

  lemma {:induction false} StepLives(w: World, step: Step, c: nat, n: nat)
    requires Inv(w) && Legal(w, step) && c < |Next(w, step).s.pcbs| && n >= 1
    ensures var v := Next(w, step);
            && |v.procs| == |v.s.pcbs|
            && v.procs[c] == Lifetime(ProcOf(w, c, v.s.pcbs[c].process.runtime), MomentsIn(w, step, c, n)).p
  {
    hide Inv, Lifetime;
    SameLength(w);
    match step
    case Pass(late, announced) => PassLives(w, late, announced, c, n);
    case Tick => TickLives(w, c, n);
    case Arrive(_) => NothingHappens(w.procs[c]);
    case Close => NothingHappens(w.procs[c]);
  }

  // ---------- a run ----------

  lemma {:induction false} PassKeepsProcess(w: World, c: nat)
    requires Inv(w) && c < |w.s.pcbs|
    ensures c < |PassOnce(w).s.pcbs| && PassOnce(w).s.pcbs[c].process == w.s.pcbs[c].process
  {
    hide Inv;
    if Done(w.s) {
      DoneIsQuiet(w);
    } else {
      DrainKeepsCurrent(w);
      PassRemaining(w, PassOnce(w));
    }
  }

  lemma {:induction false} StepKeepsProcess(w: World, step: Step, c: nat)
    requires Inv(w) && Legal(w, step) && c < |w.s.pcbs|
    ensures c < |Next(w, step).s.pcbs| && Next(w, step).s.pcbs[c].process == w.s.pcbs[c].process
  {
    hide PassOnce, LogRight, SpansRight, NothingLost, FinishedOnce, TimeAddsUp, History, Running, NonPreemptive;
    match step
    case Pass(late, announced) =>
      PassWithIs(w, late, announced);
      PassKeepsProcess(Announce(w, announced), c);
    case Tick =>
      InvBounded(w.s);
      if w.s.current.Some? {
        if w.s.pcbs[w.s.current.value].remaining > 1 {
          CountHasShape(w, w.s.current.value);
        } else {
          EndHasShape(w, w.s.current.value);
        }
      }
    case Arrive(_) =>
    case Close =>
  }

  lemma {:induction false} RunKeepsProcess(w: World, steps: seq<Step>, c: nat)
    requires Inv(w) && LegalRun(w, steps) && c < |w.s.pcbs|
    ensures c < |After(w, steps).s.pcbs| && After(w, steps).s.pcbs[c].process == w.s.pcbs[c].process
    decreases |steps|
  {
    hide Inv, Legal;
    if steps == [] {
    } else {
      StepKeepsProcess(w, steps[0], c);
      RunKeepsProcess(Next(w, steps[0]), steps[1..], c);
    }
  }

  lemma {:induction false} NotYetReceived(w: World, step: Step, c: nat, n: nat)
    requires Inv(w) && Legal(w, step) && c >= |Next(w, step).s.pcbs|
    ensures c >= |w.procs| && MomentsIn(w, step, c, n) == []
  {
    SameLength(w);
    CurrentReceived(Next(w, step));
    CurrentReceived(w);
    if c < |w.s.pcbs| {
      StepKeepsProcess(w, step, c);
    }
  }

  lemma CurrentReceived(w: World)
    requires Inv(w)
    ensures w.s.current.Some? ==> w.s.current.value < |w.s.pcbs|
  {
  }

  lemma {:induction false} RunLives(w: World, steps: seq<Step>, c: nat, n: nat)
    requires Inv(w) && LegalRun(w, steps) && c < |After(w, steps).s.pcbs| && n >= 1
    ensures var v := After(w, steps);
            && |v.procs| == |v.s.pcbs|
            && v.procs[c] == Lifetime(ProcOf(w, c, v.s.pcbs[c].process.runtime), MomentsOf(w, steps, c, n)).p
    decreases |steps|
  {
    hide Inv, Legal, Lifetime, MomentsIn, ProcOf;
    SameLength(After(w, steps));
    var runtime := After(w, steps).s.pcbs[c].process.runtime;
    var p := ProcOf(w, c, runtime);
    if steps == [] {
      SameLength(w);
      ProcOfReceived(w, c, runtime);
      NothingHappens(p);
    } else {
      var v := Next(w, steps[0]);
      RunLives(v, steps[1..], c, n);
      SameLength(v);
      if c < |v.s.pcbs| {
        StepLives(w, steps[0], c, n);
        RunKeepsProcess(v, steps[1..], c);
        ProcOfReceived(v, c, runtime);
      } else {
        NotYetReceived(w, steps[0], c, n);
        ProcOfUnknown(w, v, c, runtime);
        NothingHappens(p);
      }
      LifetimeBoth(p, MomentsIn(w, steps[0], c, n), MomentsOf(v, steps[1..], c, n));
    }
  }

  lemma ProcOfReceived(w: World, c: nat, runtime: int)
    requires c < |w.procs|
    ensures ProcOf(w, c, runtime) == w.procs[c]
  {
  }

  lemma ProcOfUnknown(v: World, w: World, c: nat, runtime: int)
    requires c >= |v.procs| && c >= |w.procs|
    ensures ProcOf(v, c, runtime) == ProcOf(w, c, runtime)
  {
  }

  /**
    In every run each process has the time left that run_process has after the moments the run had for
    it, and counts one unit for each reading of a value that was neither read nor continued at just before.
   */
  lemma {:induction false} ProcessesLive(alg: Algorithm, quantum: int, origin: nat, steps: seq<Step>, c: nat, n: nat)
    requires quantum >= 1 && LegalRun(Begin(alg, quantum, origin), steps) && n >= 1
    requires c < |After(Begin(alg, quantum, origin), steps).s.pcbs|
    ensures var b := Begin(alg, quantum, origin);
            var w, ms := After(b, steps), MomentsOf(b, steps, c, n);
            var runtime := w.s.pcbs[c].process.runtime;
            && |w.procs| == |w.s.pcbs|
            && w.procs[c] == Lifetime(Proc(runtime, 0), ms).p
            && w.s.pcbs[c].remaining == runtime - (if NewValues(ms) < runtime then NewValues(ms) else runtime)
  {
    hide Inv, Lifetime, MomentsOf;
    var b := Begin(alg, quantum, origin);
    var w, ms := After(b, steps), MomentsOf(b, steps, c, n);
    RunLives(b, steps, c, n);
    SignalsAre(w.s.pcbs[c].process.runtime, ms);
    LeftInStep(w, c);
  }

  lemma LeftInStep(w: World, c: nat)
    requires Inv(w) && c < |w.s.pcbs|
    ensures c < |w.procs| && w.procs[c].left == w.s.pcbs[c].remaining && w.s.pcbs[c].process.runtime >= 1
  {
    assert PcbInv(w.s.pcbs[c]);
  }
}
