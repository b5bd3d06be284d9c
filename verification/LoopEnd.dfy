/**
  What is true when the scheduler's main loop ends.
 */
module LoopEnd {
  import opened Options
  import opened ReadyQueue
  import opened Processes
  import opened SchedulerModel
  import opened World
  import opened WorldInvariant
  import opened WorldRuns
  import opened Quiescence
  import opened Termination

  /** The unread messages are the last ones sent, and after the end was read none valid is unread. */
  ghost predicate Closing(w: World) {
    && |w.inbox| <= |w.sent| && w.inbox == w.sent[|w.sent| - |w.inbox|..]
    && (w.s.noMore ==> w.closed)
    && (w.s.noMore && AllValid(w.sent) ==> w.inbox == [])
  }

  lemma {:induction false} DrainSuffix(w: World)
    requires |w.inbox| <= |w.sent| && w.inbox == w.sent[|w.sent| - |w.inbox|..]
    ensures var v := DrainAll(w);
            |v.inbox| <= |w.sent| && v.inbox == w.sent[|w.sent| - |v.inbox|..]
    decreases |w.inbox|
  {
    hide Inv, MidInv;
    if w.inbox == [] {
    } else {
      assert w.inbox[1..] == w.sent[|w.sent| - |w.inbox| + 1..];
      if ValidMessage(w.inbox[0]) {
        DrainSuffix(ReceiveOne(w));
      }
    }
  }

  lemma PassEnd(w: World, v: World)
    requires Inv(w) && !Done(w.s) && v == PassOnce(w)
    ensures v.s.noMore <==> w.s.noMore || w.closed
    ensures v.closed == w.closed
  {
    var a, b, c := PassParts(w);
    DrainKeepsCurrent(w);
    if a.s.current == None {
      IdleMiddleFlags(a, b);
    } else {
      StartWhenRunning(a);
    }
    HandleIsStop(b);
  }

  lemma IdleMiddleFlags(a: World, b: World)
    requires MidInv(a) && a.s.current == None && Bounded(a.s) && b == StartNext(a)
    ensures b.s.noMore == a.s.noMore
  {
    if Front(a.s.queue) == None {
      NothingToBegin(a);
    } else {
      BegunHasShape(a, Front(a.s.queue).value);
    }
  }

  lemma PassClosing(w: World, v: World)
    requires Inv(w) && Closing(w) && !Done(w.s) && v == PassOnce(w)
    ensures Closing(v)
  {
    PassFlags(w, v);
    PassEnd(w, v);
    DrainSuffix(w);
    if AllValid(w.sent) {
      DrainEmpties(w);
    }
  }

  lemma DeliverClosing(w: World, late: seq<Sending>)
    requires Closing(w) && (late == [] || !w.s.noMore)
    ensures Closing(Deliver(w, late))
  {
    var v := Deliver(w, late);
    assert v.inbox == v.sent[|v.sent| - |v.inbox|..];
    if late == [] {
      DeliverNothing(w);
    }
  }

  lemma AnnounceClosing(w: World, announced: bool)
    requires Closing(w) && !Done(w.s)
    ensures Closing(Announce(w, announced)) && !Done(Announce(w, announced).s)
  {
  }

  /** No message arrives in the pass in which the announcement does. */
  ghost predicate OnTime(step: Step) {
    step.Pass? && step.announced ==> step.late == []
  }

  lemma {:induction false} LatePassClosing(w: World, late: seq<Sending>, announced: bool)
    requires Inv(w) && Legal(w, Pass(late, announced)) && Closing(w) && OnTime(Pass(late, announced)) && !Done(w.s)
    ensures Closing(PassWith(w, late, announced))
  {
    hide Inv, PassOnce, Closing;
    PassWithIs(w, late, announced);
    var u := Announce(w, announced);
    AnnounceClosing(w, announced);
    PassClosing(u, PassOnce(u));
    PassEnd(u, PassOnce(u));
    DeliverClosing(PassOnce(u), late);
  }

  lemma {:induction false} NextClosing(w: World, step: Step)
    requires Inv(w) && Legal(w, step) && Closing(w) && OnTime(step)
    ensures Closing(Next(w, step))
  {
    hide LogRight, SpansRight, NothingLost, FinishedOnce, TimeAddsUp, History;
    hide NonPreemptive, Running, Lockstep, SchedInv, FrontInv;
    match step
    case Pass(late, announced) =>
      if Done(w.s) {
        DoneIsQuiet(w);
      } else {
        LatePassClosing(w, late, announced);
      }
    case Tick => TickClosing(w);
    case Arrive(m) => DeliverClosing(w, [m]);
    case Close =>
  }

  lemma {:induction false} TickClosing(w: World)
    requires Inv(w) && Legal(w, Tick) && Closing(w)
    ensures Closing(Next(w, Tick))
  {
    InvBounded(w.s);
    TickShape(w, TickOnce(w));
  }

  ghost predicate Punctual(steps: seq<Step>) {
    forall i :: 0 <= i < |steps| ==> OnTime(steps[i])
  }

  lemma {:induction false} RunClosing(w: World, steps: seq<Step>)
    requires Inv(w) && LegalRun(w, steps) && Closing(w) && Punctual(steps)
    ensures Closing(After(w, steps))
    decreases |steps|
  {
    hide Inv, Legal, Closing;
    if steps == [] {
    } else {
      NextClosing(w, steps[0]);
      RunClosing(Next(w, steps[0]), steps[1..]);
    }
  }

  lemma {:induction false} AllAreValidOnes(ms: seq<Pcb>)
    requires AllValid(ms)
    ensures ValidOnes(ms) == ms
    decreases |ms|
  {
    if ms == [] {
    } else {
      AllAreValidOnes(ms[1..]);
    }
  }

  ghost predicate HasValid(ms: seq<Pcb>) {
    exists k :: 0 <= k < |ms| && ValidMessage(ms[k])
  }

  lemma {:induction false} NoneValid(ms: seq<Pcb>)
    ensures ValidOnes(ms) == [] <==> !HasValid(ms)
    decreases |ms|
  {
    if ms == [] {
    } else {
      NoneValid(ms[1..]);
      if HasValid(ms[1..]) {
        var k :| 0 <= k < |ms| - 1 && ValidMessage(ms[1..][k]);
        assert ValidMessage(ms[k + 1]);
      }
      if HasValid(ms) {
        var k :| 0 <= k < |ms| && ValidMessage(ms[k]);
        assert k > 0 ==> ValidMessage(ms[1..][k - 1]);
      }
    }
  }

  /**
    When the main loop has ended, everybody received has finished, and is reported so once; and all valid
    messages were received exactly if none of those unread is valid.
   */
  lemma {:induction false} AtTheEnd(w: World)
    requires Inv(w) && Done(w.s)
    ensures forall i :: 0 <= i < |w.s.pcbs| ==> w.s.pcbs[i].remaining == 0 && FinishedLines(w.s.log, i) == 1
    ensures AsSent(w.s.pcbs) == ValidOnes(w.sent) <==> !HasValid(w.inbox)
  {
    WorkZero(w);
    FrontInBag(w.s.queue);
    NoneValid(w.inbox);
    assert |ValidOnes(w.sent)| == |AsSent(w.s.pcbs)| + |ValidOnes(w.inbox)|;
    if ValidOnes(w.inbox) == [] {
      assert AsSent(w.s.pcbs) + [] == AsSent(w.s.pcbs);
    }
  }

  /**
    When the main loop ends, and all messages were valid and none came together with the announcement,
    every process sent was received, in order, and finished exactly once.
   */
  lemma {:induction false} LoopEndsComplete(alg: Algorithm, quantum: int, origin: nat, steps: seq<Step>)
    requires quantum >= 1 && LegalRun(Begin(alg, quantum, origin), steps)
    requires Done(After(Begin(alg, quantum, origin), steps).s)
    requires AllValid(After(Begin(alg, quantum, origin), steps).sent) && Punctual(steps)
    ensures var w := After(Begin(alg, quantum, origin), steps);
            && AsSent(w.s.pcbs) == w.sent
            && forall i :: 0 <= i < |w.s.pcbs| ==> w.s.pcbs[i].remaining == 0 && FinishedLines(w.s.log, i) == 1
  {
    hide Inv;
    var w := After(Begin(alg, quantum, origin), steps);
    RunClosing(Begin(alg, quantum, origin), steps);
    AllAreValidOnes(w.sent);
    AtTheEnd(w);
  }

  /**
    Every run finishes everybody: once the end is announced and the clock has ticked long enough, the
    loop has ended and everybody received has finished once; and if all messages were valid and none came
    with the announcement, that is everybody.
   */
  lemma {:induction false} EverybodyFinishes(alg: Algorithm, quantum: int, origin: nat,
          steps: seq<Step>, more: seq<Step>)
    requires quantum >= 1 && LegalRun(Begin(alg, quantum, origin), steps)
    requires After(Begin(alg, quantum, origin), steps).closed
    requires LegalRun(After(Begin(alg, quantum, origin), steps), more)
    requires Ticks(more) > Weights(After(Begin(alg, quantum, origin), steps).sent) + 1
    ensures var w := After(After(Begin(alg, quantum, origin), steps), more);
            && Done(w.s)
            && (forall i :: 0 <= i < |w.s.pcbs| ==> w.s.pcbs[i].remaining == 0 && FinishedLines(w.s.log, i) == 1)
            && (AsSent(w.s.pcbs) == ValidOnes(w.sent) <==> !HasValid(w.inbox))
            && (AllValid(w.sent) && Punctual(steps) && Punctual(more) ==> AsSent(w.s.pcbs) == w.sent)
  {
    hide Inv, Budget, Done, Closing;
    var b := Begin(alg, quantum, origin);
    var v := After(b, steps);
    var w := After(v, more);
    BudgetSent(alg, quantum, origin, steps);
    EveryRunEnds(v, more);
    AtTheEnd(w);
    if AllValid(w.sent) && Punctual(steps) && Punctual(more) {
      BeginClosing(alg, quantum, origin);
      RunClosing(b, steps);
      RunClosing(v, more);
      ClosingMeans(w);
      AllAreValidOnes(w.sent);
    }
  }

  lemma {:induction false} BudgetSent(alg: Algorithm, quantum: int, origin: nat, steps: seq<Step>)
    requires quantum >= 1 && LegalRun(Begin(alg, quantum, origin), steps)
    ensures Budget(After(Begin(alg, quantum, origin), steps)) <= Weights(After(Begin(alg, quantum, origin), steps).sent)
  {
    RunBudget(Begin(alg, quantum, origin), steps);
  }

  lemma {:induction false} BeginClosing(alg: Algorithm, quantum: int, origin: nat)
    requires quantum >= 1
    ensures Closing(Begin(alg, quantum, origin))
  {
  }

  lemma ClosingMeans(w: World)
    requires Closing(w) && Done(w.s) && AllValid(w.sent)
    ensures !HasValid(w.inbox)
  {
  }

  // ---------- when valid messages are stranded ----------

  /** The loop has ended with a valid message unread. */
  ghost predicate Stranded(w: World) {
    Done(w.s) && HasValid(w.inbox)
  }

  lemma {:induction false} DrainWaiting(w: World)
    requires SchedInv(w.s) && forall k :: 0 <= k < |w.inbox| ==> FreshPcb(w.inbox[k])
    ensures SchedInv(DrainAll(w).s)
    ensures Size(DrainAll(w).s.queue) == 0 ==>
              Size(w.s.queue) == 0 && (w.inbox == [] || !ValidMessage(w.inbox[0]))
    decreases |w.inbox|
  {
    if w.inbox == [] || !ValidMessage(w.inbox[0]) {
    } else {
      ReceiveKeeps(w.s, w.inbox[0]);
      DrainWaiting(ReceiveOne(w));
      var v := ReceiveOne(w);
      PutKeeps<nat>(w.s.queue, |w.s.pcbs|, ArrivalPriority(w.s.alg, w.inbox[0]));
      FrontInBag(v.s.queue);
    }
  }

  /** A pass ends the main loop exactly when the end was announced and nobody runs, waits or is read first. */
  lemma {:induction false} EndsIff(w: World)
    requires Inv(w) && !Done(w.s)
    ensures Done(PassOnce(w).s) <==>
            && (w.closed || w.s.noMore) && w.s.current == None && Size(w.s.queue) == 0
            && (w.inbox == [] || !ValidMessage(w.inbox[0]))
  {
    var v := PassOnce(w);
    PassEnd(w, v);
    DrainWaiting(w);
    if w.s.current.Some? {
      StrandedNotRunning(w, v);
    } else {
      StrandedFromIdle(w, v);
    }
  }

  lemma HasValidParts(a: seq<Pcb>, b: seq<Pcb>)
    ensures HasValid(a + b) <==> HasValid(a) || HasValid(b)
  {
    if HasValid(a) {
      var k :| 0 <= k < |a| && ValidMessage(a[k]);
      assert (a + b)[k] == a[k];
    }
    if HasValid(b) {
      var k :| 0 <= k < |b| && ValidMessage(b[k]);
      assert (a + b)[|a| + k] == b[k];
    }
    if HasValid(a + b) {
      var k :| 0 <= k < |a + b| && ValidMessage((a + b)[k]);
      assert if k < |a| then a[k] == (a + b)[k] else b[k - |a|] == (a + b)[k];
    }
  }

  /** What is unread after such a pass: all but the first message. */
  lemma {:induction false} UnreadAfter(w: World)
    requires Inv(w) && !Done(w.s) && (w.inbox == [] || !ValidMessage(w.inbox[0]))
    ensures HasValid(PassOnce(w).inbox) <==> HasValid(w.inbox)
  {
    hide Inv;
    PassInbox(w);
    if w.inbox != [] {
      assert w.inbox == [w.inbox[0]] + w.inbox[1..];
      HasValidParts([w.inbox[0]], w.inbox[1..]);
    }
  }

  /**
    A pass ends the main loop with a valid message unread exactly when the end is announced, nobody runs
    or waits, no message is there to read or the first is invalid, and a valid message is behind it or
    arrives in that very pass.
   */
  lemma {:induction false} StrandedIff(w: World, late: seq<Sending>, announced: bool)
    requires Inv(w) && !Done(w.s) && Legal(w, Pass(late, announced))
    ensures Stranded(Next(w, Pass(late, announced))) <==>
            && (w.closed || w.s.noMore || announced) && w.s.current == None && Size(w.s.queue) == 0
            && (w.inbox == [] || !ValidMessage(w.inbox[0]))
            && HasValid(w.inbox + Posted(late))
  {
    hide Inv, HasValid;
    PassWithIs(w, late, announced);
    var u := Announce(w, announced);
    EndsIff(u);
    HasValidParts(PassOnce(u).inbox, Posted(late));
    HasValidParts(w.inbox, Posted(late));
    if w.inbox == [] || !ValidMessage(w.inbox[0]) {
      UnreadAfter(u);
    }
  }

  lemma StrandedNotRunning(w: World, v: World)
    requires Inv(w) && w.s.current.Some? && v == PassOnce(w)
    ensures !Done(v.s)
  {
    PassFromRunning(w, v);
    PassWork(w, v);
    DrainKeepsCurrent(w);
    DrainKeepsMid(w);
    WorkZero(DrainAll(w));
    WorkZero(v);
    FrontInBag(v.s.queue);
  }

  lemma StrandedFromIdle(w: World, v: World)
    requires Inv(w) && w.s.current == None && !Done(w.s) && v == PassOnce(w)
    ensures v.s.current == None && Size(v.s.queue) == 0 <==> Size(DrainAll(w).s.queue) == 0
  {
    var a, b, c := PassParts(w);
    DrainKeepsCurrent(w);
    IdleMiddle(a, b);
    HandleIsStop(b);
    FrontWaits(a.s);
    FrontWaits(v.s);
  }

  // ---------- runs that strand messages ----------

  /** The run is legal and leads from w to v. */
  ghost predicate Leads(w: World, steps: seq<Step>, v: World) {
    Inv(w) && LegalRun(w, steps) && After(w, steps) == v
  }

  lemma LeadsCons(w: World, steps: seq<Step>, v: World)
    requires Inv(w) && steps != [] && Legal(w, steps[0])
    ensures Leads(w, steps, v) <==> Leads(Next(w, steps[0]), steps[1..], v)
  {
  }

  lemma LeadsOne(w: World, step: Step, v: World)
    requires Inv(w) && Legal(w, step) && v == Next(w, step)
    ensures Leads(w, [step], v)
  {
    assert [step][1..] == [];
    LeadsCons(w, [step], v);
  }

  lemma TailOfSnoc(steps: seq<Step>, step: Step)
    ensures steps == [] ==> steps + [step] == [step]
    ensures steps != [] ==> (steps + [step])[1..] == steps[1..] + [step] && (steps + [step])[0] == steps[0]
  {
  }

  /** A run is extended by one more step. */
  lemma {:induction false} RunSnoc(w: World, steps: seq<Step>, v: World, step: Step, u: World)
    requires Leads(w, steps, v) && Leads(v, [step], u)
    ensures Leads(w, steps + [step], u)
    decreases |steps|
  {
    TailOfSnoc(steps, step);
    if steps == [] {
    } else {
      LeadsCons(w, steps, v);
      RunSnoc(Next(w, steps[0]), steps[1..], v, step, u);
      LeadsCons(w, steps + [step], u);
    }
  }

  lemma {:induction false} Sent(w: World, m: Sending)
    requires Inv(w) && !w.closed && Timely(w, m)
    ensures Legal(w, Arrive(m)) && Next(w, Arrive(m)) == Deliver(w, [m])
  {
  }

  lemma {:induction false} TwoSent(w: World, p: Sending, q: Sending) returns (steps: seq<Step>)
    requires Inv(w) && !w.closed && Timely(w, p) && Timely(w, q)
    ensures Leads(w, steps, Deliver(w, [p, q])) && Punctual(steps + [Pass([], true)])
  {
    hide Inv, Leads;
    Sent(w, p);
    var v := Next(w, Arrive(p));
    Sent(v, q);
    assert Posted([p, q]) == Posted([p]) + Posted([q]);
    LeadsOne(w, Arrive(p), v);
    LeadsOne(v, Arrive(q), Deliver(w, [p, q]));
    RunSnoc(w, [Arrive(p)], v, Arrive(q), Deliver(w, [p, q]));
    steps := [Arrive(p)] + [Arrive(q)];
  }

  /** A scheduler with nothing to do gets an invalid and a valid message, and the announcement in its next pass. */
  lemma {:induction false} StrandedAtEnd(w: World, steps: seq<Step>, v: World) returns (u: World)
    requires Leads(w, steps, v) && Inv(v) && !v.s.noMore && v.s.current == None && Size(v.s.queue) == 0
    requires |v.inbox| == 2 && !ValidMessage(v.inbox[0]) && ValidMessage(v.inbox[1])
    ensures Leads(w, steps + [Pass([], true)], u) && Stranded(u)
  {
    StrandedIff(v, [], true);
    assert v.inbox + Posted([]) == v.inbox;
    u := Next(v, Pass([], true));
    LeadsOne(v, Pass([], true), u);
    RunSnoc(w, steps, v, Pass([], true), u);
  }

  lemma {:induction false} InvalidFirst(w: World, bad: Sending, good: Sending)
    requires w.inbox == [] && bad.process.runtime <= 0 && ValidMessage(NewPcb(good.pid, good.process))
    ensures var v := Deliver(w, [bad, good]);
            && v.s == w.s && |v.inbox| == 2 && !ValidMessage(v.inbox[0]) && ValidMessage(v.inbox[1])
  {
    var ms := Posted([bad, good]);
    assert ms[0] == NewPcb(bad.pid, bad.process) && ms[1] == NewPcb(good.pid, good.process);
    assert w.inbox + ms == ms;
  }

  /** Whatever the algorithm, an input line with run time zero can strand the process sent after it. */
  lemma {:induction false} StrandedRun(alg: Algorithm, quantum: int, origin: nat, bad: Sending, good: Sending)
    returns (steps: seq<Step>, u: World)
    requires quantum >= 1 && 0 <= bad.process.arrival <= origin && 0 <= good.process.arrival <= origin
    requires bad.process.runtime <= 0 && ValidMessage(NewPcb(good.pid, good.process))
    ensures Leads(Begin(alg, quantum, origin), steps, u) && Stranded(u) && Punctual(steps)
  {
    hide Inv, Stranded, ValidMessage, Begin;
    var w := Begin(alg, quantum, origin);
    var s := TwoSent(w, bad, good);
    InvalidFirst(w, bad, good);
    u := StrandedAtEnd(w, s, Deliver(w, [bad, good]));
    steps := s + [Pass([], true)];
  }

  /**
    Whatever the algorithm, a process sent together with the announcement can be stranded although every message
    is valid.
   */
  lemma {:induction false} LateRun(alg: Algorithm, quantum: int, origin: nat, good: Sending) returns (u: World)
    requires quantum >= 1 && 0 <= good.process.arrival <= origin && ValidMessage(NewPcb(good.pid, good.process))
    ensures Leads(Begin(alg, quantum, origin), [Pass([good], true)], u)
    ensures Stranded(u) && AllValid(u.sent) && |u.sent| == 1 && u.s.pcbs == []
  {
    var w := Begin(alg, quantum, origin);
    var step := Pass([good], true);
    StrandedIff(w, [good], true);
    assert (w.inbox + Posted([good]))[0] == NewPcb(good.pid, good.process);
    u := Next(w, step);
    LeadsOne(w, step, u);
    PassWithIs(w, [good], true);
    NobodyReceived(Announce(w, true));
  }

  lemma {:induction false} NobodyReceived(w: World)
    requires Inv(w) && w.inbox == [] && w.s.pcbs == []
    ensures PassOnce(w).s.pcbs == [] && PassOnce(w).sent == w.sent
  {
    if !Done(w.s) {
      PassFlags(w, PassOnce(w));
      PassRemaining(w, PassOnce(w));
    }
  }
}
