/**
  Every run finishes its processes: a budget, fed only by arrivals, shrinks with every tick at which
  a received process is unfinished. And when the main loop ends, nothing was lost.
 */
module Termination {
  import opened Options
  import opened ReadyQueue
  import opened Processes
  import opened SchedulerModel
  import opened World
  import opened WorldInvariant
  import opened WorldRuns
  import opened Quiescence

  /** The run time still to be served. */
  ghost function Work(pcbs: seq<Pcb>): int {
    if pcbs == [] then 0 else Work(pcbs[..|pcbs| - 1]) + pcbs[|pcbs| - 1].remaining
  }

  ghost function TotalRuntime(pcbs: seq<Pcb>): int {
    if pcbs == [] then 0 else TotalRuntime(pcbs[..|pcbs| - 1]) + pcbs[|pcbs| - 1].process.runtime
  }

  /** What one message may cost: two ticks for each unit of run time, and two more. */
  ghost function Weight(m: Pcb): nat {
    if ValidMessage(m) then 2 * m.process.runtime + 2 else 2
  }

  ghost function Weights(ms: seq<Pcb>): nat {
    if ms == [] then 0 else Weight(ms[0]) + Weights(ms[1..])
  }

  /** A tick is about to be lost, or was just used. */
  ghost function Slack(w: World): int {
    if Work(w.s.pcbs) > 0 && (w.polled <==> w.s.current == None) then 1 else 0
  }

  ghost function Budget(w: World): int {
    Owed(w) + Slack(w)
  }

  // ---------- sums ----------

  lemma WorkAppend(pcbs: seq<Pcb>, p: Pcb)
    ensures Work(pcbs + [p]) == Work(pcbs) + p.remaining
    ensures TotalRuntime(pcbs + [p]) == TotalRuntime(pcbs) + p.process.runtime
  {
    var u := pcbs + [p];
    assert u[..|u| - 1] == pcbs && u[|u| - 1] == p;
  }

  lemma {:induction false} WorkSame(a: seq<Pcb>, b: seq<Pcb>)
    requires |a| == |b| && forall i :: 0 <= i < |a| ==> a[i].remaining == b[i].remaining
    ensures Work(a) == Work(b)
    decreases |a|
  {
    if a == [] {
    } else {
      WorkSame(a[..|a| - 1], b[..|b| - 1]);
    }
  }

  lemma {:induction false} WorkTicks(a: seq<Pcb>, b: seq<Pcb>, c: nat)
    requires |a| == |b| && c < |a| && b[c].remaining == a[c].remaining - 1
    requires forall i :: 0 <= i < |a| && i != c ==> a[i].remaining == b[i].remaining
    ensures Work(b) == Work(a) - 1
    decreases |a|
  {
    var n := |a| - 1;
    if c < n {
      WorkTicks(a[..n], b[..n], c);
    } else {
      WorkSame(a[..n], b[..n]);
    }
  }

  lemma {:induction false} WorkSign(a: seq<Pcb>)
    requires forall i :: 0 <= i < |a| ==> a[i].remaining >= 0
    ensures Work(a) >= 0
    ensures Work(a) == 0 <==> forall i :: 0 <= i < |a| ==> a[i].remaining == 0
    decreases |a|
  {
    if a == [] {
    } else {
      var n := |a| - 1;
      WorkSign(a[..n]);
      assert forall i :: 0 <= i < n ==> a[..n][i] == a[i];
      if Work(a) == 0 {
        forall i | 0 <= i < |a|
          ensures a[i].remaining == 0
        {
          if i < n {
            assert a[..n][i].remaining == 0;
          }
        }
      }
    }
  }

  lemma WorkZero(w: World)
    requires SchedInv(w.s)
    ensures Work(w.s.pcbs) >= 0
    ensures Work(w.s.pcbs) == 0 <==> forall i :: 0 <= i < |w.s.pcbs| ==> w.s.pcbs[i].remaining == 0
    ensures w.s.current.Some? ==> Work(w.s.pcbs) > 0
    ensures w.s.current == None && Front(w.s.queue) == None ==> Work(w.s.pcbs) == 0
  {
    WorkSign(w.s.pcbs);
    FrontWaits(w.s);
    if w.s.current == None && Front(w.s.queue) == None {
      forall i | 0 <= i < |w.s.pcbs|
        ensures w.s.pcbs[i].remaining == 0
      {
        assert !Waiting(w.s, i);
      }
    }
  }

  lemma {:induction false} WeightsAppend(ms: seq<Pcb>, m: Pcb)
    ensures Weights(ms + [m]) == Weights(ms) + Weight(m)
    decreases |ms|
  {
    if ms == [] {
      assert [m][1..] == [];
    } else {
      assert (ms + [m])[1..] == ms[1..] + [m];
      WeightsAppend(ms[1..], m);
    }
  }

  ghost function Owed(w: World): int {
    2 * Work(w.s.pcbs) + Weights(w.inbox)
  }

  lemma ReceiveOwed(w: World)
    requires w.inbox != [] && ValidMessage(w.inbox[0]) && FreshPcb(w.inbox[0])
    ensures Owed(ReceiveOne(w)) == Owed(w) - 2
  {
    WorkAppend(w.s.pcbs, w.inbox[0]);
  }

  /** Every message taken from the queue frees two units of the budget. */
  lemma {:induction false} DrainBudget(w: World)
    requires forall k :: 0 <= k < |w.inbox| ==> FreshPcb(w.inbox[k])
    ensures Owed(DrainAll(w)) == Owed(w) - 2 * (|w.inbox| - |DrainAll(w).inbox|)
    decreases |w.inbox|
  {
    if w.inbox == [] || !ValidMessage(w.inbox[0]) {
    } else {
      ReceiveOwed(w);
      DrainBudget(ReceiveOne(w));
    }
  }

  lemma {:induction false} DrainShrinks(w: World)
    ensures w.inbox == [] ==> DrainAll(w) == w
    ensures w.inbox != [] ==> |DrainAll(w).inbox| < |w.inbox|
    decreases |w.inbox|
  {
    if w.inbox == [] || !ValidMessage(w.inbox[0]) {
    } else {
      DrainShrinks(ReceiveOne(w));
    }
  }

  // ---------- the budget never grows in a pass and shrinks in a tick ----------

  lemma PassWork(w: World, v: World)
    requires Inv(w) && !Done(w.s) && v == PassOnce(w)
    ensures Work(v.s.pcbs) == Work(DrainAll(w).s.pcbs)
  {
    PassRemaining(w, v);
    WorkSame(DrainAll(w).s.pcbs, v.s.pcbs);
  }

  lemma PassFlags(w: World, v: World)
    requires Inv(w) && v == PassOnce(w)
    ensures v.polled && v.sent == w.sent
    ensures !Done(w.s) ==> v.inbox == DrainAll(w).inbox
  {
    if Done(w.s) {
      DoneIsQuiet(w);
    } else {
      var a, b, c := PassParts(w);
      DrainKeepsCurrent(w);
    }
  }

  lemma IdlePassBudget(w: World, v: World)
    requires Inv(w) && !Done(w.s) && w.s.current == None && v == PassOnce(w)
    ensures Slack(v) == 0
  {
    PassFlags(w, v);
    PassFromIdle(w, v);
    WorkZero(v);
  }

  lemma RunningPassBudget(w: World, v: World)
    requires Inv(w) && w.s.current.Some? && v == PassOnce(w)
    ensures Slack(v) <= Slack(w) + |w.inbox| - |DrainAll(w).inbox|
  {
    PassFlags(w, v);
    PassFromRunning(w, v);
    WorkZero(w);
    DrainShrinks(w);
    if w.polled && w.inbox == [] {
      NothingNewNoStop(w);
    }
  }

  lemma DoneSlack(w: World)
    requires SchedInv(w.s) && Done(w.s)
    ensures Budget(w.(polled := true)) == Budget(w)
  {
    WorkZero(w);
  }

  lemma ActivePassBudget(w: World, v: World)
    requires Inv(w) && !Done(w.s) && v == PassOnce(w)
    ensures Budget(v) <= Budget(w)
  {
    PassWork(w, v);
    PassFlags(w, v);
    DrainBudget(w);
    DrainShrinks(w);
    if w.s.current == None {
      IdlePassBudget(w, v);
    } else {
      RunningPassBudget(w, v);
    }
  }

  lemma PassBudget(w: World)
    requires Inv(w)
    ensures Budget(PassOnce(w)) <= Budget(w)
  {
    if Done(w.s) {
      DoneIsQuiet(w);
      DoneSlack(w);
    } else {
      ActivePassBudget(w, PassOnce(w));
    }
  }

  lemma TickShape(w: World, v: World)
    requires Inv(w) && w.polled && Bounded(w.s) && v == TickOnce(w)
    ensures !v.polled && v.inbox == w.inbox && v.sent == w.sent
    ensures v.closed == w.closed && v.s.noMore == w.s.noMore
    ensures w.s.current == None ==> v.s == w.s
    ensures w.s.current.Some? ==> RanShape(w, w.s.current.value, v)
  {
    if w.s.current.Some? {
      var c := w.s.current.value;
      if w.s.pcbs[c].remaining > 1 {
        CountHasShape(w, c);
      } else {
        EndHasShape(w, c);
      }
    }
  }

  lemma TickBudget(w: World, v: World)
    requires Inv(w) && w.polled && Bounded(w.s) && v == TickOnce(w)
    ensures Budget(v) <= Budget(w) - (if Work(w.s.pcbs) > 0 then 1 else 0)
  {
    TickShape(w, v);
    WorkZero(w);
    if w.s.current.Some? {
      WorkTicks(w.s.pcbs, v.s.pcbs, w.s.current.value);
    }
  }

  lemma {:induction false} WeightsConcat(a: seq<Pcb>, b: seq<Pcb>)
    ensures Weights(a + b) == Weights(a) + Weights(b)
    decreases |a|
  {
    if a == [] {
      assert a + b == b;
    } else {
      assert (a + b)[1..] == a[1..] + b;
      WeightsConcat(a[1..], b);
    }
  }

  lemma DeliverBudget(w: World, late: seq<Sending>)
    ensures Budget(Deliver(w, late)) - Weights(Deliver(w, late).sent) == Budget(w) - Weights(w.sent)
  {
    WeightsConcat(w.inbox, Posted(late));
    WeightsConcat(w.sent, Posted(late));
  }

  lemma {:induction false} LatePassBudget(w: World, late: seq<Sending>, announced: bool)
    requires Inv(w) && Legal(w, Pass(late, announced))
    ensures Budget(PassWith(w, late, announced)) - Weights(PassWith(w, late, announced).sent)
            <= Budget(w) - Weights(w.sent)
  {
    hide Inv, Budget;
    PassWithIs(w, late, announced);
    var u := Announce(w, announced);
    assert Budget(u) == Budget(w) by {
      AnnounceBudget(w, announced);
    }
    PassBudget(u);
    PassFlags(u, PassOnce(u));
    DeliverBudget(PassOnce(u), late);
  }

  lemma AnnounceBudget(w: World, announced: bool)
    ensures Budget(Announce(w, announced)) == Budget(w)
  {
  }

  lemma {:induction false} NextBudget(w: World, step: Step)
    requires Inv(w) && Legal(w, step)
    ensures Budget(Next(w, step)) - Weights(Next(w, step).sent)
         <= Budget(w) - Weights(w.sent) - (if step == Tick && Work(w.s.pcbs) > 0 then 1 else 0)
  {
    match step
    case Pass(late, announced) => LatePassBudget(w, late, announced);
    case Tick =>
      InvBounded(w.s);
      TickBudget(w, TickOnce(w));
      TickShape(w, TickOnce(w));
    case Arrive(m) => DeliverBudget(w, [m]);
    case Close => AnnounceBudget(w, true);
  }

  /** How many ticks of the run find a received process unfinished. */
  ghost function UnfinishedTicks(w: World, steps: seq<Step>): nat
    requires Inv(w) && LegalRun(w, steps)
    decreases |steps|
  {
    if steps == [] then 0
    else
      (if steps[0] == Tick && Work(w.s.pcbs) > 0 then 1 else 0)
      + UnfinishedTicks(Next(w, steps[0]), steps[1..])
  }

  lemma {:induction false} RunBudget(w: World, steps: seq<Step>)
    requires Inv(w) && LegalRun(w, steps)
    ensures UnfinishedTicks(w, steps) + Budget(After(w, steps)) - Weights(After(w, steps).sent)
         <= Budget(w) - Weights(w.sent)
    decreases |steps|
  {
    if steps == [] {
    } else {
      NextBudget(w, steps[0]);
      RunBudget(Next(w, steps[0]), steps[1..]);
    }
  }

  /**
    In every run the ticks that find a received process unfinished are at most two for each unit of run time
    sent, and two per message.
   */
  lemma UnfinishedTicksBounded(alg: Algorithm, quantum: int, origin: nat, steps: seq<Step>)
    requires quantum >= 1 && LegalRun(Begin(alg, quantum, origin), steps)
    ensures UnfinishedTicks(Begin(alg, quantum, origin), steps)
         <= Weights(After(Begin(alg, quantum, origin), steps).sent)
  {
    var b := Begin(alg, quantum, origin);
    RunBudget(b, steps);
    WorkZero(After(b, steps));
  }

  // ---------- the main loop ends ----------

  ghost function Ticks(steps: seq<Step>): nat {
    if steps == [] then 0 else (if steps[0] == Tick then 1 else 0) + Ticks(steps[1..])
  }

  /** One tick may come before the announcement is read. */
  ghost function Grace(w: World): nat {
    if w.polled && !w.s.noMore then 1 else 0
  }

  lemma {:induction false} InvGives(w: World)
    requires Inv(w)
    ensures Bounded(w.s) && |w.procs| == |w.s.pcbs| && Work(w.s.pcbs) >= 0 && Budget(w) >= 0
    ensures Work(w.s.pcbs) > 0 <==> exists i :: 0 <= i < |w.s.pcbs| && w.s.pcbs[i].remaining > 0
  {
    InvBounded(w.s);
    WorkZero(w);
    forall i | 0 <= i < |w.s.pcbs|
      ensures w.s.pcbs[i].remaining >= 0
    {
      assert PcbInv(w.s.pcbs[i]);
    }
  }

  lemma {:induction false} NextClosed(w: World, step: Step)
    requires Inv(w) && Legal(w, step) && w.closed
    ensures Next(w, step).closed && Next(w, step).sent == w.sent
    ensures step.Pass? ==> step.late == []
    ensures step != Tick ==> Budget(Next(w, step)) <= Budget(w)
  {
    hide Inv, Budget;
    NextBudget(w, step);
    match step
    case Pass(late, announced) =>
      PassWithIs(w, late, announced);
      DeliverNothing(PassOnce(Announce(w, announced)));
      PassFlags(Announce(w, announced), PassOnce(Announce(w, announced)));
      PassKeepsClosed(Announce(w, announced));
    case Tick =>
      InvGives(w);
      TickShape(w, TickOnce(w));
    case Arrive(_) =>
    case Close =>
  }

  lemma {:induction false} PassKeepsClosed(w: World)
    requires Inv(w)
    ensures PassOnce(w).closed == w.closed
    ensures !Done(w.s) && w.closed ==> PassOnce(w).s.noMore
  {
    if !Done(w.s) {
      var a, b, c := PassParts(w);
      DrainSurroundings(w);
    }
  }

  lemma {:induction false} NextDone(w: World, step: Step)
    requires Inv(w) && Legal(w, step) && w.closed && Done(w.s)
    ensures Done(Next(w, step).s)
  {
    match step
    case Pass(late, announced) => DoneIsQuiet(w);
    case Tick =>
      InvBounded(w.s);
      TickShape(w, TickOnce(w));
    case Arrive(_) =>
    case Close =>
  }

  lemma {:induction false} DoneStays(w: World, steps: seq<Step>)
    requires Inv(w) && LegalRun(w, steps) && w.closed && Done(w.s)
    ensures Done(After(w, steps).s)
    decreases |steps|
  {
    hide Inv, Legal, Done;
    if steps == [] {
    } else {
      NextClosed(w, steps[0]);
      NextDone(w, steps[0]);
      DoneStays(Next(w, steps[0]), steps[1..]);
    }
  }

  /** At a tick the loop has ended, or has not read the announcement, or has somebody to serve. */
  lemma {:induction false} TickAdvances(w: World)
    requires Inv(w) && w.polled && w.closed && !Done(w.s)
    ensures Bounded(w.s)
    ensures Budget(TickOnce(w)) + Grace(TickOnce(w)) + 1 <= Budget(w) + Grace(w)
  {
    InvBounded(w.s);
    TickBudget(w, TickOnce(w));
    TickShape(w, TickOnce(w));
    WorkZero(w);
    FrontInBag(w.s.queue);
  }

  lemma {:induction false} PassGrace(w: World, step: Step)
    requires Inv(w) && Legal(w, step) && w.closed && step != Tick && !Done(w.s)
    ensures Grace(Next(w, step)) <= Grace(w)
  {
    match step
    case Pass(late, announced) =>
      PassWithIs(w, late, announced);
      PassKeepsClosed(Announce(w, announced));
    case Arrive(_) =>
    case Close =>
  }

  lemma {:induction false} EndsWithin(w: World, steps: seq<Step>)
    requires Inv(w) && LegalRun(w, steps) && w.closed
    ensures Done(After(w, steps).s) || Ticks(steps) <= Budget(w) + Grace(w)
    decreases |steps|
  {
    hide Inv, Legal, Done, Budget, Grace;
    if steps == [] {
      InvGives(w);
    } else if Done(w.s) {
      DoneStays(w, steps);
    } else {
      var v := Next(w, steps[0]);
      NextClosed(w, steps[0]);
      EndsWithin(v, steps[1..]);
      if steps[0] == Tick {
        TickIsLegal(w);
        TickAdvances(w);
      } else {
        PassGrace(w, steps[0]);
      }
    }
  }

  lemma TickIsLegal(w: World)
    requires Inv(w) && Legal(w, Tick)
    ensures w.polled
  {
  }

  /**
    Every run ends: once the end is announced, the main loop is over after as many ticks as the work and
    the unread messages allow, and one more.
   */
  lemma {:induction false} EveryRunEnds(w: World, steps: seq<Step>)
    requires Inv(w) && LegalRun(w, steps) && w.closed
    requires Ticks(steps) > Budget(w) + 1
    ensures Done(After(w, steps).s)
  {
    EndsWithin(w, steps);
  }

  // ---------- no time is lost either ----------

  /** The units of the timeline during which one of the first n processes ran. */
  ghost function RanTotal(t: seq<Option<nat>>, n: nat): nat {
    if n == 0 then 0 else RanTotal(t, n - 1) + Ran(t, n - 1)
  }

  lemma {:induction false} RanTotalAppend(t: seq<Option<nat>>, x: Option<nat>, n: nat)
    ensures RanTotal(t + [x], n) == RanTotal(t, n) + (if x.Some? && x.value < n then 1 else 0)
    decreases n
  {
    if n == 0 {
    } else {
      RanTotalAppend(t, x, n - 1);
      OneMore(t, x, 0, n - 1);
    }
  }

  lemma {:induction false} RanTotalNothing(n: nat)
    ensures RanTotal([], n) == 0
  {
    if n == 0 {
    } else {
      RanTotalNothing(n - 1);
    }
  }

  lemma {:induction false} BusyOrIdle(t: seq<Option<nat>>, n: nat)
    requires forall u :: 0 <= u < |t| ==> t[u] == None || t[u].value < n
    ensures RanTotal(t, n) + IdleUnits(t) == |t|
    decreases |t|
  {
    if t == [] {
      RanTotalNothing(n);
    } else {
      var r, x := t[..|t| - 1], t[|t| - 1];
      assert t == r + [x];
      BusyOrIdle(r, n);
      RanTotalAppend(r, x, n);
    }
  }

  lemma {:induction false} RanTotalIsServed(t: seq<Option<nat>>, pcbs: seq<Pcb>)
    requires forall i :: 0 <= i < |pcbs| ==> PcbRight(t, pcbs[i], i)
    ensures RanTotal(t, |pcbs|) == TotalRuntime(pcbs) - Work(pcbs)
    decreases |pcbs|
  {
    if pcbs == [] {
    } else {
      var n := |pcbs| - 1;
      assert forall i :: 0 <= i < n ==> pcbs[..n][i] == pcbs[i];
      assert PcbRight(t, pcbs[n], n);
      RanTotalIsServed(t, pcbs[..n]);
    }
  }

  /** The clock is the idle time plus the run time served so far. */
  lemma AllTimeAccounted(w: World)
    requires Inv(w)
    ensures w.clock == IdleUnits(w.timeline) + TotalRuntime(w.s.pcbs) - Work(w.s.pcbs)
  {
    BusyOrIdle(w.timeline, |w.s.pcbs|);
    RanTotalIsServed(w.timeline, w.s.pcbs);
  }

  // ---------- how many ticks exactly ----------

  /** The run time served so far. */
  ghost function ServedTime(w: World): int {
    TotalRuntime(w.s.pcbs) - Work(w.s.pcbs)
  }

  lemma {:induction false} PassServesNobody(w: World)
    requires Inv(w)
    ensures ServedTime(PassOnce(w)) == ServedTime(w)
  {
    hide Inv, PassOnce;
    AllTimeAccounted(w);
    AllTimeAccounted(PassOnce(w));
    PassKeepsTime(w);
  }

  lemma {:induction false} PassKeepsTime(w: World)
    requires Inv(w)
    ensures PassOnce(w).clock == w.clock && PassOnce(w).timeline == w.timeline
  {
    if !Done(w.s) {
      var a, b, c := PassParts(w);
      DrainKeepsCurrent(w);
    }
  }

  lemma {:induction false} TickServes(w: World)
    requires Inv(w) && w.polled && Quiet(w)
    ensures Bounded(w.s) && |w.procs| == |w.s.pcbs|
    ensures ServedTime(TickOnce(w)) == ServedTime(w) + (if Work(w.s.pcbs) > 0 then 1 else 0)
  {
    InvGives(w);
    BusyMeansUnfinished(w);
    TickKeepsInv(w);
    hide Inv, Quiet, TickOnce;
    AllTimeAccounted(w);
    AllTimeAccounted(TickOnce(w));
    TickTimeline(w);
    OneMore(w.timeline, w.s.current, 0, 0);
    if w.s.current == None {
      QuietIdleMeansFinished(w);
    }
  }

  lemma {:induction false} TickTimeline(w: World)
    requires Inv(w) && Bounded(w.s) && |w.procs| == |w.s.pcbs|
    ensures TickOnce(w).clock == w.clock + 1 && TickOnce(w).timeline == w.timeline + [w.s.current]
  {
  }

  lemma {:induction false} BusyMeansUnfinished(w: World)
    requires Inv(w)
    ensures w.s.current.Some? ==> Work(w.s.pcbs) > 0
  {
    WorkZero(w);
  }

  lemma {:induction false} NextServes(w: World, step: Step)
    requires Inv(w) && Legal(w, step) && (step == Tick ==> Quiet(w))
    ensures ServedTime(Next(w, step)) == ServedTime(w) + (if step == Tick && Work(w.s.pcbs) > 0 then 1 else 0)
  {
    match step
    case Pass(late, announced) =>
      PassWithIs(w, late, announced);
      PassServesNobody(Announce(w, announced));
    case Tick => TickServes(w);
    case Arrive(_) =>
    case Close =>
  }

  lemma {:induction false} RunServes(w: World, steps: seq<Step>)
    requires Inv(w) && LegalRun(w, steps) && QuietTicks(w, steps)
    ensures UnfinishedTicks(w, steps) == ServedTime(After(w, steps)) - ServedTime(w)
    decreases |steps|
  {
    hide Inv, Legal, Quiet, ServedTime;
    if steps == [] {
    } else {
      NextServes(w, steps[0]);
      RunServes(Next(w, steps[0]), steps[1..]);
    }
  }

  /**
    If the loop is at rest at each tick, the ticks that find somebody unfinished are exactly as many as
    units of run time were served: when all have finished, the sum of the run times.
   */
  lemma {:induction false} ExactTicks(alg: Algorithm, quantum: int, origin: nat, steps: seq<Step>)
    requires quantum >= 1 && LegalRun(Begin(alg, quantum, origin), steps)
            && QuietTicks(Begin(alg, quantum, origin), steps)
    ensures var w := After(Begin(alg, quantum, origin), steps);
            UnfinishedTicks(Begin(alg, quantum, origin), steps) == TotalRuntime(w.s.pcbs) - Work(w.s.pcbs)
  {
    RunServes(Begin(alg, quantum, origin), steps);
  }
}
