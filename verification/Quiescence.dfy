/**
  When the main loop has nothing more to do, and how soon it gets there.
 */
module Quiescence {
  import opened Options
  import opened ReadyQueue
  import opened Processes
  import opened SchedulerModel
  import opened World
  import opened WorldInvariant
  import opened WorldRuns

  /** A further pass of the main loop changes nothing. */
  ghost predicate Quiet(w: World)
    requires Inv(w)
  {
    PassOnce(w) == w
  }

  ghost predicate AllValid(ms: seq<Pcb>) {
    forall k :: 0 <= k < |ms| ==> ValidMessage(ms[k])
  }

  lemma {:induction false} DrainEmpties(w: World)
    requires AllValid(w.inbox)
    ensures DrainAll(w).inbox == []
    decreases |w.inbox|
  {
    if w.inbox == [] {
    } else {
      DrainEmpties(ReceiveOne(w));
    }
  }

  lemma {:induction false} DrainKeepsCurrent(w: World)
    ensures DrainAll(w).s.current == w.s.current && DrainAll(w).polled == w.polled
    ensures DrainAll(w).clock == w.clock && DrainAll(w).timeline == w.timeline && DrainAll(w).closed == w.closed
    ensures DrainAll(w).s.lastRemain == w.s.lastRemain && DrainAll(w).s.noMore == w.s.noMore
    ensures DrainAll(w).sent == w.sent
    ensures w.s.pcbs <= DrainAll(w).s.pcbs
    decreases |w.inbox|
  {
    if w.inbox == [] || !ValidMessage(w.inbox[0]) {
    } else {
      DrainKeepsCurrent(ReceiveOne(w));
    }
  }

  lemma StartWhenRunning(w: World)
    requires Bounded(w.s) && |w.procs| == |w.s.pcbs| && w.s.current.Some?
    ensures StartNext(w) == w
  {
  }

  /** What a pass leaves behind when it neither drained nor dispatched nor stopped. */
  ghost predicate AtRest(w: World)
    requires Bounded(w.s)
  {
    && w.inbox == [] && w.polled && (w.closed ==> w.s.noMore)
    && (w.s.current == None ==> Front(w.s.queue) == None)
    && !MustStop(w.s)
  }

  lemma RestIsQuiet(w: World)
    requires Inv(w) && Bounded(w.s) && AtRest(w)
    ensures Quiet(w)
  {
    if !Done(w.s) {
      var a, b, c := PassParts(w);
      if w.s.current == None {
        NothingToBegin(w);
      } else {
        StartWhenRunning(w);
      }
      HandleIsStop(b);
    }
  }

  ghost predicate SameRemaining(s: Sched, t: Sched) {
    && |s.pcbs| == |t.pcbs|
    && forall i :: 0 <= i < |s.pcbs| ==>
         && t.pcbs[i].remaining == s.pcbs[i].remaining
         && t.pcbs[i].process == s.pcbs[i].process && t.pcbs[i].pid == s.pcbs[i].pid
  }

  /** The middle of a pass that finds nothing running: somebody runs afterwards, or nobody waits. */
  lemma IdleMiddle(a: World, b: World)
    requires MidInv(a) && a.s.current == None && Bounded(a.s) && b == StartNext(a)
    ensures Bounded(b.s) && !MustStop(b.s) && SameRemaining(a.s, b.s) && b.inbox == a.inbox
    ensures b.s.current == None <==> Front(a.s.queue) == None
    ensures b.s.current == None ==> b == a
  {
    if Front(a.s.queue) == None {
      NothingToBegin(a);
    } else {
      BegunSched(a);
      BegunHasShape(a, Front(a.s.queue).value);
      InvBounded(b.s);
    }
  }

  /** A pass that finds nothing running starts somebody if anybody waits. */
  lemma PassFromIdle(w: World, v: World)
    requires Inv(w) && w.s.current == None && !Done(w.s) && v == PassOnce(w)
    ensures v.inbox == DrainAll(w).inbox && SameRemaining(DrainAll(w).s, v.s)
    ensures v.s.current == None ==> Front(v.s.queue) == None
    ensures Bounded(v.s) && !MustStop(v.s)
  {
    var a, b, c := PassParts(w);
    DrainKeepsCurrent(w);
    IdleMiddle(a, b);
    HandleIsStop(b);
  }

  /** The middle of a pass that finds a process running. */
  lemma RunningMiddle(a: World, b: World)
    requires MidInv(a) && a.s.current.Some? && Bounded(a.s) && b == StartNext(a)
    ensures b == a && SameRemaining(a.s, HandleCurrent(b).s) && HandleCurrent(b).inbox == a.inbox
    ensures HandleCurrent(b).s.current == if MustStop(a.s) then None else a.s.current
    ensures !MustStop(a.s) ==> HandleCurrent(b) == a
  {
    StartWhenRunning(a);
    HandleIsStop(b);
  }

  /** A pass that finds a process running only stops it, and only if it must. */
  lemma PassFromRunning(w: World, v: World)
    requires Inv(w) && w.s.current.Some? && v == PassOnce(w)
    ensures v.inbox == DrainAll(w).inbox && SameRemaining(DrainAll(w).s, v.s)
    ensures Bounded(DrainAll(w).s)
    ensures v.s.current == if MustStop(DrainAll(w).s) then None else w.s.current
  {
    var a, b, c := PassParts(w);
    DrainKeepsCurrent(w);
    RunningMiddle(a, b);
  }

  /** After a pass, only a newcomer can force the running process to stop. */
  lemma NothingNewNoStop(w: World)
    requires Inv(w) && w.polled && w.s.current.Some?
    ensures Bounded(w.s) && !MustStop(w.s)
  {
    InvBounded(w.s);
  }

  lemma FirstPass(w: World, u: World)
    requires Inv(w) && AllValid(w.inbox) && !Done(w.s) && u == PassOnce(w)
    ensures u.inbox == [] && u.polled && (u.closed ==> u.s.noMore)
  {
    var a, b, c := PassParts(w);
    DrainEmpties(w);
    DrainKeepsCurrent(w);
    if a.s.current == None {
      IdleMiddle(a, b);
    } else {
      StartWhenRunning(a);
    }
    HandleIsStop(b);
  }

  lemma SecondPass(u: World, v: World)
    requires Inv(u) && u.inbox == [] && u.polled && (u.closed ==> u.s.noMore) && !Done(u.s) && v == PassOnce(u)
    ensures Bounded(v.s) && AtRest(v)
  {
    FirstPass(u, v);
    if u.s.current == None {
      PassFromIdle(u, v);
    } else {
      NothingNewNoStop(u);
      PassFromRunning(u, v);
      NothingNewNoStop(v);
    }
  }

  lemma DoneIsQuiet(w: World)
    requires Inv(w) && Done(w.s)
    ensures PassOnce(w) == w.(polled := true) && Quiet(PassOnce(w))
  {
  }

  /** Between ticks the main loop comes to rest within two passes. */
  lemma QuietAfterTwoPasses(w: World)
    requires Inv(w) && AllValid(w.inbox)
    ensures Quiet(PassOnce(PassOnce(w)))
  {
    var u := PassOnce(w);
    if Done(w.s) {
      DoneIsQuiet(w);
    } else {
      FirstPass(w, u);
      if Done(u.s) {
        DoneIsQuiet(u);
      } else {
        SecondPass(u, PassOnce(u));
        RestIsQuiet(PassOnce(u));
      }
    }
  }

  // ---------- with invalid messages in the queue ----------

  ghost function Invalids(ms: seq<Pcb>): nat {
    if ms == [] then 0 else (if ValidMessage(ms[0]) then 0 else 1) + Invalids(ms[1..])
  }

  lemma {:induction false} NoInvalids(ms: seq<Pcb>)
    ensures Invalids(ms) == 0 <==> AllValid(ms)
    decreases |ms|
  {
    if ms == [] {
    } else {
      NoInvalids(ms[1..]);
      assert forall k :: 1 <= k < |ms| ==> ms[k] == ms[1..][k - 1];
    }
  }

  /** Reading the queue stops at the first invalid message and drops it. */
  lemma {:induction false} DrainDropsOne(w: World)
    ensures Invalids(DrainAll(w).inbox) == if Invalids(w.inbox) == 0 then 0 else Invalids(w.inbox) - 1
    decreases |w.inbox|
  {
    if w.inbox == [] || !ValidMessage(w.inbox[0]) {
    } else {
      DrainDropsOne(ReceiveOne(w));
    }
  }

  lemma {:induction false} PassInbox(w: World)
    requires Inv(w) && !Done(w.s)
    ensures PassOnce(w).inbox == DrainAll(w).inbox
  {
    var a, b, c := PassParts(w);
  }

  ghost function Passes(w: World, n: nat): (v: World)
    requires Inv(w)
    ensures Inv(v)
    decreases n
  {
    if n == 0 then w else Passes(PassOnce(w), n - 1)
  }

  lemma {:induction false} QuietStays(w: World, n: nat)
    requires Inv(w) && Quiet(w)
    ensures Passes(w, n) == w
    decreases n
  {
    hide Inv, PassOnce;
    if n == 0 {
    } else {
      QuietStays(w, n - 1);
    }
  }

  /** Between ticks the main loop comes to rest within two passes, and one more for each invalid message. */
  lemma {:induction false} QuietAfterPasses(w: World, n: nat)
    requires Inv(w) && n >= Invalids(w.inbox) + 2
    ensures Quiet(Passes(w, n))
    decreases n
  {
    hide Inv, Done, PassOnce, DrainAll, Invalids, AllValid;
    var u := PassOnce(w);
    if Done(w.s) {
      DoneIsQuiet(w);
      QuietStays(u, n - 1);
    } else if Invalids(w.inbox) == 0 {
      NoInvalids(w.inbox);
      QuietAfterTwoPasses(w);
      QuietStays(PassOnce(u), n - 2);
    } else {
      PassInbox(w);
      DrainDropsOne(w);
      QuietAfterPasses(u, n - 1);
    }
  }

  /** What a pass does to the processes: it receives new ones, and nobody's remaining time changes. */
  lemma PassRemaining(w: World, v: World)
    requires Inv(w) && !Done(w.s) && v == PassOnce(w)
    ensures SameRemaining(DrainAll(w).s, v.s)
  {
    if w.s.current == None {
      PassFromIdle(w, v);
    } else {
      PassFromRunning(w, v);
    }
  }

  /** At rest the processor is idle only if every process received so far has finished. */
  lemma QuietIdleMeansFinished(w: World)
    requires Inv(w) && Quiet(w) && w.s.current == None
    ensures forall i :: 0 <= i < |w.s.pcbs| ==> w.s.pcbs[i].remaining == 0
  {
    if !Done(w.s) {
      PassFromIdle(w, w);
    }
    FrontWaits(w.s);
    forall i | 0 <= i < |w.s.pcbs|
      ensures w.s.pcbs[i].remaining == 0
    {
      assert !Waiting(w.s, i);
      assert PcbInv(w.s.pcbs[i]);
    }
  }

  /** The main loop is at rest whenever the clock ticks. */
  ghost predicate QuietTicks(w: World, steps: seq<Step>)
    requires Inv(w) && LegalRun(w, steps)
    decreases |steps|
  {
    steps == [] ||
    ((steps[0] == Tick ==> Quiet(w)) && QuietTicks(Next(w, steps[0]), steps[1..]))
  }
}
