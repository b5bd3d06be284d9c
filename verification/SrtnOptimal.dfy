/**
  Shortest remaining time next is optimal: against any rival schedule of the same processes, received
  at the same times and served one at a time, it has at every moment finished at least as many.
 */
module SrtnOptimal {
  import opened Options
  import opened SchedulerModel
  import opened World
  import opened WorldInvariant
  import opened WorldRuns
  import opened Quiescence
  import opened Deficits

  ghost predicate NoneNegative(s: Sched) {
    forall i :: 0 <= i < |s.pcbs| ==> s.pcbs[i].remaining >= 0
  }

  /** The remaining times of all received processes. */
  ghost function Left(s: Sched): (r: Times)
    requires NoneNegative(s)
    ensures |r| == |s.pcbs|
  {
    seq(|s.pcbs|, i requires 0 <= i < |s.pcbs| => s.pcbs[i].remaining)
  }

  /** The run times of the processes received from number n on. */
  ghost function Newcomers(s: Sched, n: nat): (r: Times)
    requires n <= |s.pcbs| && forall i :: n <= i < |s.pcbs| ==> s.pcbs[i].process.runtime >= 0
    ensures |r| == |s.pcbs| - n
  {
    seq(|s.pcbs| - n, i requires 0 <= i < |s.pcbs| - n => s.pcbs[n + i].process.runtime)
  }

  // ---------- the rival ----------

  /** Whom the rival serves during each unit of the clock; a finished or unknown process means nobody. */
  type Choice = nat -> Option<nat>

  ghost function Serve(q: Times, x: Option<nat>): (r: Times)
    ensures |r| == |q|
  {
    if x.Some? && x.value < |q| && q[x.value] > 0 then Served(q, x.value) else q
  }

  /** The rival receives whom SRTN receives. */
  ghost function RivalPass(w: World, q: Times): (r: Times)
    requires Inv(w) && |q| == |w.s.pcbs|
    ensures |r| == |PassOnce(w).s.pcbs|
  {
    PassReceives(w, PassOnce(w));
    q + Newcomers(PassOnce(w).s, |q|)
  }

  lemma TickReceivesNobody(w: World)
    requires Inv(w) && w.polled
    ensures Bounded(w.s) && |TickOnce(w).s.pcbs| == |w.s.pcbs|
  {
    hide LogRight, SpansRight, NothingLost, FinishedOnce, TimeAddsUp, History, Running, NonPreemptive;
    InvBounded(w.s);
    TickRemaining(w, TickOnce(w));
  }

  ghost function RivalNext(w: World, q: Times, step: Step, choose: Choice): (r: Times)
    requires Inv(w) && Legal(w, step) && |q| == |w.s.pcbs|
    ensures |r| == |Next(w, step).s.pcbs|
  {
    match step
    case Pass(late, announced) =>
      PassWithIs(w, late, announced);
      RivalPass(Announce(w, announced), q)
    case Tick =>
      TickReceivesNobody(w);
      Serve(q, choose(w.clock))
    case Arrive(_) => q
    case Close => q
  }

  /** The rival's remaining times at the end of the run. */
  ghost function Rival(w: World, q: Times, steps: seq<Step>, choose: Choice): (r: Times)
    requires Inv(w) && LegalRun(w, steps) && |q| == |w.s.pcbs|
    ensures |r| == |After(w, steps).s.pcbs|
    decreases |steps|
  {
    if steps == [] then q
    else Rival(Next(w, steps[0]), RivalNext(w, q, steps[0], choose), steps[1..], choose)
  }

  // ---------- what the steps do to the remaining times ----------

  lemma {:induction false} DrainAdds(w: World)
    requires forall k :: 0 <= k < |w.inbox| ==> FreshPcb(w.inbox[k])
    ensures w.s.pcbs <= DrainAll(w).s.pcbs
    ensures forall i :: |w.s.pcbs| <= i < |DrainAll(w).s.pcbs| ==>
              DrainAll(w).s.pcbs[i].remaining == DrainAll(w).s.pcbs[i].process.runtime
    decreases |w.inbox|
  {
    if w.inbox == [] || !ValidMessage(w.inbox[0]) {
    } else {
      DrainAdds(ReceiveOne(w));
    }
  }

  lemma PassReceives(w: World, v: World)
    requires Inv(w) && v == PassOnce(w)
    ensures OnlyNewcomers(w.s, v.s)
  {
    hide LogRight, SpansRight, NothingLost, FinishedOnce, TimeAddsUp, Running, NonPreemptive;
    InvNoneNegative(w);
    InvNoneNegative(v);
    if Done(w.s) {
      DoneIsQuiet(w);
    } else {
      PassRemaining(w, v);
      DrainAdds(w);
    }
  }

  lemma InvNoneNegative(w: World)
    requires Inv(w)
    ensures NoneNegative(w.s)
  {
    forall i | 0 <= i < |w.s.pcbs|
      ensures PcbInv(w.s.pcbs[i])
    {
    }
  }

  lemma TickRemaining(w: World, v: World)
    requires Inv(w) && w.polled && Bounded(w.s) && v == TickOnce(w)
    ensures |v.s.pcbs| == |w.s.pcbs|
    ensures w.s.current == None ==> v.s.pcbs == w.s.pcbs
    ensures w.s.current.Some? ==> RanShape(w, w.s.current.value, v)
  {
    if w.s.current.Some? {
      var c := w.s.current.value;
      if w.s.pcbs[c].remaining > 1 {
        CountHasShape(w, c);
      } else {
        EndHasShape(w, c);
      }
    }
  }

  // ---------- SRTN stays ahead ----------

  /** The running process has the least remaining time of all unfinished ones. */
  lemma ShortestRuns(w: World, c: nat)
    requires Inv(w) && w.s.alg == SRTN && w.s.current == Some(c)
    ensures forall i :: 0 <= i < |w.s.pcbs| && w.s.pcbs[i].remaining > 0 ==>
              w.s.pcbs[c].remaining <= w.s.pcbs[i].remaining
  {
    FrontWaits(w.s);
    forall i | 0 <= i < |w.s.pcbs| && w.s.pcbs[i].remaining > 0
      ensures w.s.pcbs[c].remaining <= w.s.pcbs[i].remaining
    {
      assert Waiting(w.s, i);
    }
  }

  lemma {:induction false} AheadAfterArrivals(r: Times, q: Times, x: Times)
    requires Ahead(r, q)
    ensures Ahead(r + x, q + x)
    decreases |x|
  {
    if x == [] {
      assert r + x == r && q + x == q;
    } else {
      var y, z := x[..|x| - 1], x[|x| - 1];
      AheadAfterArrivals(r, q, y);
      AheadAfterArrival(r + y, q + y, z);
      assert r + x == r + y + [z] && q + x == q + y + [z];
    }
  }

  /** t is s with newcomers, who have all their run time left. */
  ghost predicate OnlyNewcomers(s: Sched, t: Sched) {
    && |s.pcbs| <= |t.pcbs| && NoneNegative(s) && NoneNegative(t)
    && (forall i :: 0 <= i < |s.pcbs| ==> t.pcbs[i].remaining == s.pcbs[i].remaining)
    && (forall i :: |s.pcbs| <= i < |t.pcbs| ==>
          t.pcbs[i].remaining == t.pcbs[i].process.runtime && t.pcbs[i].process.runtime >= 0)
  }

  lemma NewcomersAhead(s: Sched, t: Sched, q: Times)
    requires OnlyNewcomers(s, t) && Ahead(Left(s), q)
    ensures Ahead(Left(t), q + Newcomers(t, |q|))
  {
    assert Left(t) == Left(s) + Newcomers(t, |q|);
    AheadAfterArrivals(Left(s), q, Newcomers(t, |q|));
  }

  lemma PassAhead(w: World, q: Times)
    requires Inv(w) && NoneNegative(w.s) && Ahead(Left(w.s), q)
    ensures OnlyNewcomers(w.s, PassOnce(w).s)
    ensures Ahead(Left(PassOnce(w).s), q + Newcomers(PassOnce(w).s, |q|))
  {
    PassReceives(w, PassOnce(w));
    NewcomersAhead(w.s, PassOnce(w).s, q);
  }

  lemma IdleTickAhead(s: Sched, t: Sched, q: Times)
    requires t.pcbs == s.pcbs && |q| == |s.pcbs| && forall i :: 0 <= i < |s.pcbs| ==> s.pcbs[i].remaining == 0
    ensures NoneNegative(t) && Ahead(Left(t), q)
  {
    FinishedIsAhead(Left(t), q);
  }

  lemma RunTickAhead(w: World, c: nat, v: World, q: Times, x: Option<nat>)
    requires RanShape(w, c, v) && NoneNegative(w.s) && Ahead(Left(w.s), q)
    requires forall i :: 0 <= i < |w.s.pcbs| && w.s.pcbs[i].remaining > 0 ==>
              w.s.pcbs[c].remaining <= w.s.pcbs[i].remaining
    ensures NoneNegative(v.s) && Ahead(Left(v.s), Serve(q, x))
  {
    forall i | 0 <= i < |v.s.pcbs|
      ensures v.s.pcbs[i].remaining == if i == c then w.s.pcbs[i].remaining - 1 else w.s.pcbs[i].remaining
    {
    }
    assert Left(v.s) == Served(Left(w.s), c);
    if x.Some? && x.value < |q| && q[x.value] > 0 {
      AheadAfterService(Left(w.s), q, c, x.value);
    } else {
      AheadOfIdling(Left(w.s), q, c);
    }
  }

  lemma TickAhead(w: World, q: Times, x: Option<nat>, v: World)
    requires Inv(w) && w.polled && Quiet(w) && w.s.alg == SRTN && Bounded(w.s) && v == TickOnce(w)
    requires NoneNegative(w.s) && Ahead(Left(w.s), q)
    ensures NoneNegative(v.s) && Ahead(Left(v.s), Serve(q, x))
  {
    TickRemaining(w, v);
    if w.s.current == None {
      QuietIdleMeansFinished(w);
      IdleTickAhead(w.s, v.s, Serve(q, x));
    } else {
      ShortestRuns(w, w.s.current.value);
      RunTickAhead(w, w.s.current.value, v, q, x);
    }
  }

  lemma NextAhead(w: World, q: Times, step: Step, choose: Choice)
    requires Inv(w) && Legal(w, step) && w.s.alg == SRTN && (step == Tick ==> Quiet(w))
    requires NoneNegative(w.s) && Ahead(Left(w.s), q)
    ensures NoneNegative(Next(w, step).s) && Ahead(Left(Next(w, step).s), RivalNext(w, q, step, choose))
  {
    InvNoneNegative(Next(w, step));
    match step
    case Pass(late, announced) =>
      PassWithIs(w, late, announced);
      PassAhead(Announce(w, announced), q);
    case Tick =>
      InvBounded(w.s);
      TickAhead(w, q, choose(w.clock), TickOnce(w));
    case Arrive(_) =>
    case Close =>
  }

  lemma {:induction false} RunAhead(w: World, q: Times, steps: seq<Step>, choose: Choice)
    requires Inv(w) && LegalRun(w, steps) && w.s.alg == SRTN && QuietTicks(w, steps)
    requires NoneNegative(w.s) && Ahead(Left(w.s), q)
    ensures NoneNegative(After(w, steps).s)
    ensures Ahead(Left(After(w, steps).s), Rival(w, q, steps, choose))
    decreases |steps|
  {
    if steps == [] {
    } else {
      NextAhead(w, q, steps[0], choose);
      RunAhead(Next(w, steps[0]), RivalNext(w, q, steps[0], choose), steps[1..], choose);
    }
  }

  /** At the end of every run, and so at every moment, SRTN has finished at least as many as the rival. */
  lemma SrtnFinishesMost(quantum: int, origin: nat, steps: seq<Step>, choose: Choice)
    requires quantum >= 1 && LegalRun(Begin(SRTN, quantum, origin), steps)
    requires QuietTicks(Begin(SRTN, quantum, origin), steps)
    ensures var b := Begin(SRTN, quantum, origin);
            && |b.s.pcbs| == 0 && NoneNegative(After(b, steps).s)
            && FinishedCount(Left(After(b, steps).s)) >= FinishedCount(Rival(b, [], steps, choose))
  {
    var b := Begin(SRTN, quantum, origin);
    RunAhead(b, [], steps, choose);
    AheadFinishesMore(Left(After(b, steps).s), Rival(b, [], steps, choose));
  }
}
