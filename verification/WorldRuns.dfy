/**
  Runs of the world. The assumptions about the environment are those of Legal: messages carry a past
  arrival time, and the main loop makes at least one pass between two ticks of the clock.
 */
module WorldRuns {
  import opened Options
  import opened ReadyQueue
  import opened Processes
  import opened SchedulerModel
  import opened World
  import opened WorldInvariant

  /** The end of a pass: the announcement that no more processes will come is read. */
  ghost function EndPass(w: World): World {
    w.(s := w.s.(noMore := w.s.noMore || w.closed), polled := true)
  }

  /** One pass of the main loop; none is made once the loop has ended. */
  ghost function PassOnce(w: World): (v: World)
    requires Inv(w)
    ensures Inv(v) && SameConfiguration(w, v)
  {
    if Done(w.s) then
      FlagsKeepInv(w, w.(polled := true));
      w.(polled := true)
    else
      DrainKeepsMid(w);
      var a := DrainAll(w);
      StartKeepsMid(a);
      var b := StartNext(a);
      HandleKeepsInv(b);
      SliceLeft(b);
      var c := HandleCurrent(b);
      FlagsKeepInv(c, EndPass(c));
      EndPass(c)
  }

  // ---------- a pass during which messages arrive ----------

  /**
    One pass of the main loop: it reads the message queue, dispatches, handles the running process and
    looks for the announcement. After it has read the queue, more messages and the announcement arrive.
   */
  ghost function PassDuring(w: World, late: seq<Sending>, announced: bool): World
    requires Inv(w) && !Done(w.s)
  {
    DrainKeepsMid(w);
    var a := Announce(Deliver(DrainAll(w), late), announced);
    RestCommutes(DrainAll(w), a);
    EndPass(HandleCurrent(StartNext(a)))
  }

  /** What the middle of a pass does depends neither on unread messages nor on the announcement. */
  lemma {:induction false} StartCommutes(v: World, a: World)
    requires MidInv(v) && a == v.(inbox := a.inbox, sent := a.sent, closed := a.closed)
    ensures Bounded(v.s) && |v.procs| == |v.s.pcbs|
    ensures StartNext(a) == StartNext(v).(inbox := a.inbox, sent := a.sent, closed := a.closed)
  {
    InvBounded(v.s);
  }

  lemma {:induction false} HandleCommutes(v: World, a: World)
    requires Bounded(v.s) && |v.procs| == |v.s.pcbs| && a == v.(inbox := a.inbox, sent := a.sent, closed := a.closed)
    ensures HandleCurrent(a) == HandleCurrent(v).(inbox := a.inbox, sent := a.sent, closed := a.closed)
  {
  }

  lemma {:induction false} RestCommutes(v: World, a: World)
    requires MidInv(v) && a == v.(inbox := a.inbox, sent := a.sent, closed := a.closed)
    ensures Bounded(a.s) && |a.procs| == |a.s.pcbs| && Bounded(StartNext(a).s)
            && |StartNext(a).procs| == |StartNext(a).s.pcbs|
    ensures EndPass(HandleCurrent(StartNext(a)))
         == EndPass(HandleCurrent(StartNext(v)).(inbox := a.inbox, sent := a.sent, closed := a.closed))
  {
    hide MidInv;
    StartCommutes(v, a);
    RestDefined(v);
    HandleCommutes(StartNext(v), StartNext(a));
  }

  lemma {:induction false} RestDefined(v: World)
    requires MidInv(v)
    ensures Bounded(v.s) && |v.procs| == |v.s.pcbs|
    ensures Bounded(StartNext(v).s) && |StartNext(v).procs| == |StartNext(v).s.pcbs|
  {
    InvBounded(v.s);
    StartKeepsMid(v);
    HandleKeepsInv(StartNext(v));
  }

  lemma {:induction false} DrainAnnounced(w: World, announced: bool)
    ensures DrainAll(Announce(w, announced)) == Announce(DrainAll(w), announced)
    decreases |w.inbox|
  {
    if w.inbox == [] || !ValidMessage(w.inbox[0]) {
    } else {
      DrainAnnounced(ReceiveOne(w), announced);
    }
  }

  /** Messages that come too late for a pass are as if they came after it; the announcement is as if it came before. */
  lemma {:induction false} LateIsAfter(w: World, late: seq<Sending>, announced: bool)
    requires Inv(w) && !Done(w.s)
    ensures Inv(Announce(w, announced))
            && PassDuring(w, late, announced) == Deliver(PassOnce(Announce(w, announced)), late)
  {
    AnnounceKeepsInv(w, announced);
    DrainAnnounced(w, announced);
    DrainKeepsMid(w);
    hide Inv, MidInv, StartNext, HandleCurrent, EndPass;
    var v := DrainAll(w);
    PassParted(w, announced, v);
    RestCommutes(v, Announce(v, announced));
    RestCommutes(v, Announce(Deliver(v, late), announced));
    RestDefined(v);
    HandleSurroundings(v);
    EndPassDelivers(HandleCurrent(StartNext(v)), v, late, announced);
  }

  lemma EndPassDelivers(c: World, v: World, late: seq<Sending>, announced: bool)
    requires c.inbox == v.inbox && c.sent == v.sent && c.closed == v.closed
    ensures var p, q := Announce(v, announced), Announce(Deliver(v, late), announced);
            EndPass(c.(inbox := q.inbox, sent := q.sent, closed := q.closed))
            == Deliver(EndPass(c.(inbox := p.inbox, sent := p.sent, closed := p.closed)), late)
  {
  }

  lemma {:induction false} PassParted(w: World, announced: bool, v: World)
    requires Inv(w) && Inv(Announce(w, announced)) && !Done(w.s) && MidInv(v) && v == DrainAll(w)
    requires DrainAll(Announce(w, announced)) == Announce(v, announced)
    ensures Bounded(v.s) && |v.procs| == |v.s.pcbs|
    ensures var p := Announce(v, announced);
            && Bounded(StartNext(p).s) && |StartNext(p).procs| == |StartNext(p).s.pcbs|
            && PassOnce(Announce(w, announced)) == EndPass(HandleCurrent(StartNext(p)))
  {
    InvBounded(v.s);
    var a, b, c := PassParts(Announce(w, announced));
  }

  lemma {:induction false} HandleSurroundings(v: World)
    requires MidInv(v) && Bounded(v.s) && |v.procs| == |v.s.pcbs|
    requires Bounded(StartNext(v).s) && |StartNext(v).procs| == |StartNext(v).s.pcbs|
    ensures var c := HandleCurrent(StartNext(v)); c.inbox == v.inbox && c.sent == v.sent && c.closed == v.closed
  {
  }

  lemma {:induction false} AnnounceKeepsInv(w: World, announced: bool)
    requires Inv(w)
    ensures Inv(Announce(w, announced))
  {
    FlagsKeepInv(w, Announce(w, announced));
  }

  lemma {:induction false} DeliverKeepsInv(w: World, late: seq<Sending>)
    requires Inv(w) && forall k :: 0 <= k < |late| ==> 0 <= late[k].process.arrival <= w.clock
    ensures Inv(Deliver(w, late))
    decreases |late|
  {
    if late == [] {
      assert Deliver(w, late) == w;
    } else {
      var n := |late| - 1;
      DeliverKeepsInv(w, late[..n]);
      ArriveKeepsInv(Deliver(w, late[..n]), NewPcb(late[n].pid, late[n].process));
      DeliverLast(w, late);
    }
  }

  lemma DeliverLast(w: World, late: seq<Sending>)
    requires late != []
    ensures var n := |late| - 1;
            var v, m := Deliver(w, late[..n]), NewPcb(late[n].pid, late[n].process);
            Deliver(w, late) == v.(inbox := v.inbox + [m], sent := v.sent + [m])
  {
    var n := |late| - 1;
    assert Posted(late) == Posted(late[..n]) + [NewPcb(late[n].pid, late[n].process)];
  }

  // ---------- runs ----------

  ghost predicate Timely(w: World, m: Sending) {
    0 <= m.process.arrival <= w.clock
  }

  ghost predicate Legal(w: World, step: Step) {
    match step
    case Arrive(m) => !w.closed && Timely(w, m)
    case Pass(late, announced) =>
      && (forall k :: 0 <= k < |late| ==> Timely(w, late[k]))
      && (late != [] ==> !w.closed)
      && (Done(w.s) ==> late == [] && !announced)
    case Tick => w.polled
    case Close => true
  }

  lemma {:induction false} LatePassKeepsInv(w: World, late: seq<Sending>, announced: bool)
    requires Inv(w) && !Done(w.s) && Legal(w, Pass(late, announced))
    ensures Inv(PassDuring(w, late, announced)) && SameConfiguration(w, PassDuring(w, late, announced))
  {
    hide Inv, PassDuring;
    LateIsAfter(w, late, announced);
    PassKeepsClock(Announce(w, announced));
    DeliverKeepsInv(PassOnce(Announce(w, announced)), late);
  }

  /** The effect of a pass; once the loop has ended, none is made. */
  ghost function PassWith(w: World, late: seq<Sending>, announced: bool): (v: World)
    requires Inv(w) && Legal(w, Pass(late, announced))
    ensures Inv(v) && SameConfiguration(w, v)
  {
    if Done(w.s) then PassOnce(w)
    else
      LatePassKeepsInv(w, late, announced);
      PassDuring(w, late, announced)
  }

  lemma {:induction false} PassWithIs(w: World, late: seq<Sending>, announced: bool)
    requires Inv(w) && Legal(w, Pass(late, announced))
    ensures Inv(Announce(w, announced))
    ensures PassWith(w, late, announced) == Deliver(PassOnce(Announce(w, announced)), late)
  {
    AnnounceKeepsInv(w, announced);
    if Done(w.s) {
      DeliverNothing(PassOnce(w));
    } else {
      LateIsAfter(w, late, announced);
    }
  }

  lemma DeliverNothing(w: World)
    ensures Deliver(w, []) == w
  {
    assert w.inbox + [] == w.inbox && w.sent + [] == w.sent;
  }

  ghost function Next(w: World, step: Step): (v: World)
    requires Inv(w) && Legal(w, step)
    ensures Inv(v) && SameConfiguration(w, v)
  {
    match step
    case Arrive(m) =>
      DeliverKeepsInv(w, [m]);
      Deliver(w, [m])
    case Pass(late, announced) => PassWith(w, late, announced)
    case Tick =>
      TickKeepsInv(w);
      TickOnce(w)
    case Close =>
      AnnounceKeepsInv(w, true);
      Announce(w, true)
  }

  /** The world in which the scheduler has just started. */
  ghost function Begin(alg: Algorithm, quantum: int, origin: nat): (w: World)
    requires quantum >= 1
    ensures Inv(w) && w.s.alg == alg && w.s.quantum == quantum && w.origin == origin
    ensures w.clock == origin && w.inbox == [] && w.sent == [] && !w.closed
    ensures !w.s.noMore && w.s.current == None && Size(w.s.queue) == 0
  {
    StartInv(alg, quantum, origin);
    Start(alg, quantum, origin)
  }

  ghost predicate LegalRun(w: World, steps: seq<Step>)
    requires Inv(w)
    decreases |steps|
  {
    steps == [] || (Legal(w, steps[0]) && LegalRun(Next(w, steps[0]), steps[1..]))
  }

  /** The world after a run. */
  ghost function After(w: World, steps: seq<Step>): (v: World)
    requires Inv(w) && LegalRun(w, steps)
    ensures Inv(v) && SameConfiguration(w, v)
    decreases |steps|
  {
    if steps == [] then w else After(Next(w, steps[0]), steps[1..])
  }

  /** The parts of a pass of the main loop. */
  lemma {:induction false} PassParts(w: World) returns (a: World, b: World, c: World)
    requires Inv(w) && !Done(w.s)
    ensures a == DrainAll(w) && MidInv(a) && Bounded(a.s) && b == StartNext(a)
    ensures MidInv(b) && Bounded(b.s) && (b.s.current == None ==> Front(b.s.queue) == None)
    ensures c == HandleCurrent(b) && Inv(c)
    ensures PassOnce(w) == EndPass(c)
  {
    DrainKeepsMid(w);
    a := DrainAll(w);
    StartKeepsMid(a);
    b := StartNext(a);
    HandleKeepsInv(b);
    c := HandleCurrent(b);
  }

  lemma {:induction false} PassKeepsClock(w: World)
    requires Inv(w)
    ensures PassOnce(w).clock == w.clock
  {
    if !Done(w.s) {
      var a, b, c := PassParts(w);
      DrainSurroundings(w);
    }
  }

  // ---------- what the scheduler itself does in a pass ----------

  lemma {:induction false} DrainMatches(w: World)
    ensures (DrainAll(w).s, DrainAll(w).inbox) == Drain(w.s, w.inbox)
    decreases |w.inbox|
  {
    if w.inbox == [] || !ValidMessage(w.inbox[0]) {
    } else {
      DrainMatches(ReceiveOne(w));
    }
  }

  lemma StartMatches(w: World)
    requires Bounded(w.s) && |w.procs| == |w.s.pcbs| && Bounded(ChargeIdle(w.s, w.clock))
    ensures StartNext(w).s == if w.s.current == None then Schedule(ChargeIdle(w.s, w.clock), w.clock) else w.s
  {
  }

  lemma {:induction false} PassOnceIsLoopBody(w: World) returns (drained: Sched, started: Sched)
    requires Inv(w) && !Done(w.s)
    ensures drained == Drain(w.s, w.inbox).0 && Bounded(drained) && Bounded(ChargeIdle(drained, w.clock))
    ensures started == (if drained.current == None then Schedule(ChargeIdle(drained, w.clock), w.clock) else drained)
    ensures Bounded(started)
    ensures var t := Handle(started, w.clock);
            PassOnce(w).s == t.(noMore := t.noMore || w.closed)
    ensures PassOnce(w).inbox == Drain(w.s, w.inbox).1
  {
    var a, b, c := PassParts(w);
    DrainMatches(w);
    DrainSurroundings(w);
    StartMatches(a);
    drained, started := a.s, b.s;
  }

  /**
    The scheduler's part of a pass is the sequence of calls in the body of its main loop, whatever arrives
    meanwhile.
   */
  lemma {:induction false} PassIsLoopBody(w: World, late: seq<Sending>, announced: bool)
    returns (drained: Sched, started: Sched)
    requires Inv(w) && !Done(w.s)
    ensures drained == Drain(w.s, w.inbox).0 && Bounded(drained) && Bounded(ChargeIdle(drained, w.clock))
    ensures started == (if drained.current == None then Schedule(ChargeIdle(drained, w.clock), w.clock) else drained)
    ensures Bounded(started)
    ensures var t := Handle(started, w.clock);
            PassDuring(w, late, announced).s == t.(noMore := t.noMore || w.closed || announced)
    ensures PassDuring(w, late, announced).inbox == Drain(w.s, w.inbox).1 + Posted(late)
  {
    hide Inv;
    LateIsAfter(w, late, announced);
    drained, started := PassOnceIsLoopBody(Announce(w, announced));
  }

  lemma {:induction false} DrainSurroundings(w: World)
    ensures DrainAll(w).clock == w.clock && DrainAll(w).closed == w.closed
    decreases |w.inbox|
  {
    if w.inbox == [] || !ValidMessage(w.inbox[0]) {
    } else {
      DrainSurroundings(ReceiveOne(w));
    }
  }
}
