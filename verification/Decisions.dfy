/**
  What a pass of the main loop decides: whom it receives, whom it stops and whom it dispatches.
 */
module Decisions {
  import opened Options
  import opened ReadyQueue
  import opened Processes
  import opened SchedulerModel
  import opened World
  import opened WorldInvariant
  import opened WorldRuns
  import opened Quiescence

  // ---------- whom it receives ----------

  lemma {:induction false} DrainReads(w: World, n: nat)
    requires n <= |w.inbox|
    requires forall k :: 0 <= k < n ==>
               w.inbox[k].pid > 0 && w.inbox[k].process.id > 0 && w.inbox[k].process.runtime > 0
    requires n < |w.inbox| ==>
               w.inbox[n].pid <= 0 || w.inbox[n].process.id <= 0 || w.inbox[n].process.runtime <= 0
    ensures DrainAll(w).s.pcbs == w.s.pcbs + w.inbox[..n]
    ensures DrainAll(w).inbox == if n < |w.inbox| then w.inbox[n + 1..] else []
    decreases n
  {
    if n == 0 {
    } else {
      hide ReceiveOne;
      OneRead(w);
      DrainReads(ReceiveOne(w), n - 1);
      OneMoreRead(w.s.pcbs, w.inbox, n);
    }
  }

  lemma OneMoreRead(pcbs: seq<Pcb>, ms: seq<Pcb>, n: nat)
    requires 0 < n <= |ms|
    ensures pcbs + ms[..n] == (pcbs + [ms[0]]) + ms[1..][..n - 1]
    ensures n < |ms| ==> ms[n + 1..] == ms[1..][n..]
  {
  }

  lemma OneRead(w: World)
    requires w.inbox != []
    ensures ReceiveOne(w).s.pcbs == w.s.pcbs + [w.inbox[0]] && ReceiveOne(w).inbox == w.inbox[1..]
  {
  }

  /**
    A pass receives the messages in order, up to the first whose pid, id or run time is not positive, with
    their pids and processes; that one is dropped and the rest stays unread. Nobody else changes.
   */
  lemma {:induction false} PassReads(w: World, late: seq<Sending>, announced: bool, n: nat)
    requires Inv(w) && Legal(w, Pass(late, announced)) && !Done(w.s) && n <= |w.inbox|
    requires forall k :: 0 <= k < n ==>
               w.inbox[k].pid > 0 && w.inbox[k].process.id > 0 && w.inbox[k].process.runtime > 0
    requires n < |w.inbox| ==>
               w.inbox[n].pid <= 0 || w.inbox[n].process.id <= 0 || w.inbox[n].process.runtime <= 0
    ensures var v := Next(w, Pass(late, announced));
            && |v.s.pcbs| == |w.s.pcbs| + n
            && (forall i :: 0 <= i < |w.s.pcbs| ==>
                  && v.s.pcbs[i].pid == w.s.pcbs[i].pid && v.s.pcbs[i].process == w.s.pcbs[i].process
                  && v.s.pcbs[i].remaining == w.s.pcbs[i].remaining)
            && (forall k :: 0 <= k < n ==>
                  && v.s.pcbs[|w.s.pcbs| + k].pid == w.inbox[k].pid
                  && v.s.pcbs[|w.s.pcbs| + k].process == w.inbox[k].process
                  && v.s.pcbs[|w.s.pcbs| + k].remaining == w.inbox[k].process.runtime)
            && v.inbox == (if n < |w.inbox| then w.inbox[n + 1..] else []) + Posted(late)
  {
    hide Inv, PassOnce, DrainAll, SameRemaining;
    PassWithIs(w, late, announced);
    var u := Announce(w, announced);
    DrainReads(u, n);
    PassRemaining(u, PassOnce(u));
    PassInbox(u);
    RemainingSame(DrainAll(u).s, PassOnce(u).s);
    FreshInbox(w);
    ReceivedFields(w, n, DrainAll(u).s.pcbs);
  }

  lemma ReceivedFields(w: World, n: nat, pcbs: seq<Pcb>)
    requires n <= |w.inbox| && pcbs == w.s.pcbs + w.inbox[..n]
    requires forall k :: 0 <= k < |w.inbox| ==> w.inbox[k].remaining == w.inbox[k].process.runtime
    ensures forall i :: 0 <= i < |w.s.pcbs| ==> pcbs[i] == w.s.pcbs[i]
    ensures forall k :: 0 <= k < n ==>
              && pcbs[|w.s.pcbs| + k] == w.inbox[k]
              && pcbs[|w.s.pcbs| + k].remaining == w.inbox[k].process.runtime
  {
  }

  lemma RemainingSame(s: Sched, t: Sched)
    requires SameRemaining(s, t)
    ensures |s.pcbs| == |t.pcbs|
    ensures forall i :: 0 <= i < |s.pcbs| ==>
              && t.pcbs[i].pid == s.pcbs[i].pid && t.pcbs[i].process == s.pcbs[i].process
              && t.pcbs[i].remaining == s.pcbs[i].remaining
  {
  }

  lemma FreshInbox(w: World)
    requires Inv(w)
    ensures forall k :: 0 <= k < |w.inbox| ==> w.inbox[k].remaining == w.inbox[k].process.runtime
  {
  }

  // ---------- who is in front after the messages have been read ----------

  /** Some process received after the first n has a key greater than that of f. */
  ghost predicate Outranked(s: Sched, n: nat, key: int) {
    exists i :: n <= i < |s.pcbs| && Key(s, i) > key
  }

  lemma ReceiveFront(w: World, f: nat)
    requires MidInv(w) && w.inbox != [] && ValidMessage(w.inbox[0]) && Front(w.s.queue) == Some(f)
    ensures var v, n := ReceiveOne(w), |w.s.pcbs|;
            && f < n && |v.s.pcbs| == n + 1 && Key(v.s, f) == Key(w.s, f)
            && Front(v.s.queue) == Some(if Key(v.s, n) > Key(w.s, f) then n else f)
  {
    assert FreshPcb(w.inbox[0]);
    FrontWaits(w.s);
    FrontAfterPut<nat>(w.s.queue, |w.s.pcbs|, ArrivalPriority(w.s.alg, w.inbox[0]));
  }

  /** f is in front and nobody received after the first n outranks it, or one of those who do is in front. */
  ghost predicate FrontOr(s: Sched, f: nat, n: nat, key: int) {
    || (Front(s.queue) == Some(f) && !Outranked(s, n, key))
    || (Front(s.queue).Some? && n <= Front(s.queue).value < |s.pcbs| && Key(s, Front(s.queue).value) > key)
  }

  lemma FrontOrStep(v: Sched, f: nat, g: nat, n: nat, key: int)
    requires f < n < |v.pcbs| && g == (if Key(v, n) > key then n else f)
    requires FrontOr(v, g, n + 1, if g == n then Key(v, n) else key)
    ensures FrontOr(v, f, n, key)
  {
  }

  /** Reading messages leaves f in front unless a newcomer has a greater key. */
  lemma {:induction false} DrainFront(w: World, f: nat)
    requires MidInv(w) && Front(w.s.queue) == Some(f)
    ensures var v, n := DrainAll(w), |w.s.pcbs|;
            && f < n <= |v.s.pcbs| && Key(v.s, f) == Key(w.s, f)
            && FrontOr(v.s, f, n, Key(w.s, f))
    decreases |w.inbox|
  {
    hide LogRight, SpansRight, NothingLost, FinishedOnce, TimeAddsUp, History, Running, NonPreemptive, Lockstep;
    hide FrontOr;
    if w.inbox == [] || !ValidMessage(w.inbox[0]) {
      FrontWaits(w.s);
      NobodyNew(w.s, f);
    } else {
      var u, n := ReceiveOne(w), |w.s.pcbs|;
      ReceiveKeepsMid(w);
      ReceiveFront(w, f);
      hide MidInv;
      var g := if Key(u.s, n) > Key(w.s, f) then n else f;
      DrainFront(u, g);
      DrainKeepsCurrent(u);
      SameKey(u.s, DrainAll(u).s, f);
      SameKey(u.s, DrainAll(u).s, n);
      FrontOrStep(DrainAll(u).s, f, g, n, Key(w.s, f));
    }
  }

  lemma NobodyNew(s: Sched, f: nat)
    requires Front(s.queue) == Some(f) && f < |s.pcbs|
    ensures FrontOr(s, f, |s.pcbs|, Key(s, f))
  {
  }

  lemma SameKey(s: Sched, t: Sched, i: nat)
    requires s.pcbs <= t.pcbs && t.alg == s.alg && i < |s.pcbs|
    ensures Key(t, i) == Key(s, i)
  {
  }

  // ---------- whom it stops ----------

  lemma OutrankedBy(s: Sched, t: Sched, n: nat, c: nat, left: int)
    requires SameRemaining(s, t) && c < n <= |s.pcbs| && s.alg == SRTN && t.alg == SRTN
    ensures Outranked(s, n, -left) <==> exists i :: n <= i < |t.pcbs| && t.pcbs[i].remaining < left
  {
    if Outranked(s, n, -left) {
      var i :| n <= i < |s.pcbs| && Key(s, i) > -left;
      assert t.pcbs[i].remaining < left;
    }
    if exists i :: n <= i < |t.pcbs| && t.pcbs[i].remaining < left {
      var i :| n <= i < |t.pcbs| && t.pcbs[i].remaining < left;
      assert Key(s, i) > -left;
    }
  }

  lemma FrontOrMeans(s: Sched, f: nat, n: nat, key: int)
    requires FrontOr(s, f, n, key) && f < n
    ensures Outranked(s, n, key) <==> Front(s.queue) != Some(f)
    ensures Front(s.queue).Some?
  {
  }

  lemma {:induction false} DrainKeeps(w: World)
    requires Inv(w)
    ensures MidInv(DrainAll(w)) && Bounded(DrainAll(w).s)
    ensures DrainAll(w).s.alg == w.s.alg && DrainAll(w).s.quantum == w.s.quantum
  {
    DrainKeepsMid(w);
    InvBounded(DrainAll(w).s);
  }

  /** Under SRTN the running process must stop exactly if a newcomer has strictly less time left. */
  lemma {:induction false} MustStopSrtn(w: World, v: World, c: nat)
    requires Inv(w) && w.s.alg == SRTN && w.s.current == Some(c) && v == PassOnce(w)
    ensures Bounded(DrainAll(w).s) && c < |w.s.pcbs| <= |v.s.pcbs|
    ensures MustStop(DrainAll(w).s) <==>
            exists i :: |w.s.pcbs| <= i < |v.s.pcbs| && v.s.pcbs[i].remaining < w.s.pcbs[c].remaining
  {
    hide LogRight, SpansRight, NothingLost, FinishedOnce, TimeAddsUp, History, Running, NonPreemptive, Lockstep;
    hide PassOnce, FrontOr, SameRemaining, Outranked;
    DrainKeeps(w);
    DrainKeepsCurrent(w);
    DrainFront(w, c);
    FrontOrMeans(DrainAll(w).s, c, |w.s.pcbs|, Key(w.s, c));
    PassRemaining(w, v);
    RemainingSame(DrainAll(w).s, v.s);
    OutrankedBy(DrainAll(w).s, v.s, |w.s.pcbs|, c, w.s.pcbs[c].remaining);
  }

  /** Under round robin it must stop exactly if it has run for the quantum. */
  lemma {:induction false} MustStopRR(w: World, c: nat)
    requires Inv(w) && w.s.alg == RR && w.s.current == Some(c)
    ensures Bounded(DrainAll(w).s)
    ensures MustStop(DrainAll(w).s) <==> w.clock - w.s.logStart == w.s.quantum
    ensures 0 <= w.s.logStart <= w.clock == |w.timeline|
    ensures forall u :: w.s.logStart <= u < w.clock ==> w.timeline[u] == Some(c)
  {
    hide LogRight, SpansRight, NothingLost, FinishedOnce, TimeAddsUp, NonPreemptive, Lockstep;
    DrainKeeps(w);
    DrainKeepsCurrent(w);
  }

  /**
    A pass never replaces the running process. It stops it, so that nobody runs, under SRTN exactly if a
    process received in this pass has strictly less time left; under RR exactly if it has run for the
    quantum without a break; and under HPF never.
   */
  lemma {:induction false} PassStopsIff(w: World, late: seq<Sending>, announced: bool, c: nat)
    requires Inv(w) && Legal(w, Pass(late, announced)) && w.s.current == Some(c)
    ensures var v := Next(w, Pass(late, announced));
            && c < |w.s.pcbs| <= |v.s.pcbs|
            && (v.s.current == None || v.s.current == Some(c))
            && (w.s.alg == SRTN ==>
                  (v.s.current == None <==>
                   exists i :: |w.s.pcbs| <= i < |v.s.pcbs| && v.s.pcbs[i].remaining < w.s.pcbs[c].remaining))
            && (w.s.alg == RR ==> (v.s.current == None <==> w.clock - w.s.logStart == w.s.quantum))
            && (w.s.alg == HPF ==> v.s.current == Some(c))
  {
    hide Inv, PassOnce, MustStop;
    PassWithIs(w, late, announced);
    var u := Announce(w, announced);
    RunningIsNotDone(w, c);
    PassFromRunning(u, PassOnce(u));
    PassRemaining(u, PassOnce(u));
    DrainKeepsCurrent(u);
    match w.s.alg
    case SRTN => MustStopSrtn(u, PassOnce(u), c);
    case RR => MustStopRR(u, c);
    case HPF => MustStopHpf(u);
  }

  lemma {:induction false} MustStopHpf(w: World)
    requires Inv(w) && w.s.alg == HPF
    ensures Bounded(DrainAll(w).s) && !MustStop(DrainAll(w).s)
  {
    DrainKeeps(w);
  }

  lemma RunningIsNotDone(w: World, c: nat)
    requires Inv(w) && w.s.current == Some(c)
    ensures !Done(w.s) && c < |w.s.pcbs|
  {
  }

  // ---------- whom it dispatches ----------

  lemma BeginsFront(a: World)
    requires MidInv(a) && a.s.current == None
    ensures Bounded(a.s) && StartNext(a).s.current == Front(a.s.queue)
  {
    hide LogRight, SpansRight, NothingLost, FinishedOnce, History, Running, NonPreemptive, TimeAddsUp, Lockstep;
    if Front(a.s.queue) == None {
      NothingToBegin(a);
    } else {
      BegunSched(a);
    }
  }

  lemma {:induction false} IdleDispatches(w: World)
    requires Inv(w) && w.s.current == None && !Done(w.s)
    ensures PassOnce(w).s.current == Front(DrainAll(w).s.queue)
    ensures MidInv(DrainAll(w)) && DrainAll(w).s.current == None
  {
    hide LogRight, SpansRight, NothingLost, FinishedOnce, History, Running, NonPreemptive;
    var a, b, d := PassParts(w);
    DrainKeepsCurrent(w);
    IdleMiddle(a, b);
    HandleIsStop(b);
    BeginsFront(a);
  }

  lemma FrontIsBest(s: Sched, t: Sched)
    requires QueueInv(s) && s.current == None && SameRemaining(s, t)
    requires forall i :: 0 <= i < |s.pcbs| ==> PcbInv(s.pcbs[i])
    ensures Front(s.queue) == None <==> forall i :: 0 <= i < |t.pcbs| ==> t.pcbs[i].remaining == 0
    ensures Front(s.queue).Some? ==>
              var c := Front(s.queue).value;
              && c < |t.pcbs| && t.pcbs[c].remaining > 0
              && (s.alg == SRTN ==> forall i :: 0 <= i < |t.pcbs| && t.pcbs[i].remaining > 0 ==>
                    t.pcbs[c].remaining <= t.pcbs[i].remaining)
              && (s.alg == HPF ==> forall i :: 0 <= i < |t.pcbs| && t.pcbs[i].remaining > 0 ==>
                    t.pcbs[c].process.priority <= t.pcbs[i].process.priority)
  {
    FrontWaits(s);
    forall i | 0 <= i < |s.pcbs|
      ensures Waiting(s, i) <==> t.pcbs[i].remaining != 0
    {
      assert PcbInv(s.pcbs[i]);
    }
  }

  /** A pass that finds nobody running dispatches one of the best of all who are unfinished, if there is one. */
  lemma {:induction false} PassDispatches(w: World, late: seq<Sending>, announced: bool)
    requires Inv(w) && Legal(w, Pass(late, announced)) && w.s.current == None && !Done(w.s)
    ensures var t := Next(w, Pass(late, announced)).s;
            && (t.current == None <==> forall i :: 0 <= i < |t.pcbs| ==> t.pcbs[i].remaining == 0)
            && (t.current.Some? ==>
                  var c := t.current.value;
                  && c < |t.pcbs| && t.pcbs[c].remaining > 0
                  && (w.s.alg == SRTN ==> forall i :: 0 <= i < |t.pcbs| && t.pcbs[i].remaining > 0 ==>
                        t.pcbs[c].remaining <= t.pcbs[i].remaining)
                  && (w.s.alg == HPF ==> forall i :: 0 <= i < |t.pcbs| && t.pcbs[i].remaining > 0 ==>
                        t.pcbs[c].process.priority <= t.pcbs[i].process.priority))
  {
    hide Inv, PassOnce, Lockstep, History, Running, NonPreemptive, TimeAddsUp, LogRight, FinishedOnce, SpansRight;
    hide NothingLost, QueueInv, SameRemaining, PcbInv;
    PassWithIs(w, late, announced);
    var u := Announce(w, announced);
    IdleDispatches(u);
    PassRemaining(u, PassOnce(u));
    FrontIsBest(DrainAll(u).s, PassOnce(u).s);
    DrainKeepsCurrent(u);
  }

  /** x goes before y: strictly less time left, or strictly more urgent. */
  predicate Before(alg: Algorithm, x: Pcb, y: Pcb) {
    match alg
    case RR => false
    case SRTN => x.remaining < y.remaining
    case HPF => x.process.priority < y.process.priority
  }

  lemma {:induction false} OvertakenIs(s: Sched, a: Sched, t: Sched, n: nat, f: nat)
    requires SameRemaining(a, t) && f < |s.pcbs| == n <= |a.pcbs| && a.alg == s.alg
    ensures Outranked(a, n, Key(s, f)) <==> exists i :: n <= i < |t.pcbs| && Before(s.alg, t.pcbs[i], s.pcbs[f])
  {
    forall i | n <= i < |a.pcbs|
      ensures Key(a, i) > Key(s, f) <==> Before(s.alg, t.pcbs[i], s.pcbs[f])
    {
      assert t.pcbs[i].process == a.pcbs[i].process;
    }
    if Outranked(a, n, Key(s, f)) {
      var i :| n <= i < |a.pcbs| && Key(a, i) > Key(s, f);
      assert Before(s.alg, t.pcbs[i], s.pcbs[f]);
    }
  }

  /** The process that was in front before the pass is dispatched, unless a newcomer is strictly better. */
  lemma {:induction false} FrontGoesFirst(w: World, late: seq<Sending>, announced: bool, f: nat)
    requires Inv(w) && Legal(w, Pass(late, announced)) && w.s.current == None && Front(w.s.queue) == Some(f)
    ensures f < |w.s.pcbs|
    ensures var t := Next(w, Pass(late, announced)).s;
            t.current == Some(f) <==>
            !exists i :: |w.s.pcbs| <= i < |t.pcbs| && Before(w.s.alg, t.pcbs[i], w.s.pcbs[f])
  {
    hide LogRight, SpansRight, NothingLost, FinishedOnce, TimeAddsUp, History, Running, NonPreemptive, Lockstep;
    hide PassOnce, FrontOr, SameRemaining, Outranked, Before, PcbInv;
    FrontWaits(w.s);
    PassWithIs(w, late, announced);
    var u := Announce(w, announced);
    IdleDispatches(u);
    DrainFront(u, f);
    FrontOrMeans(DrainAll(u).s, f, |u.s.pcbs|, Key(u.s, f));
    PassRemaining(u, PassOnce(u));
    RemainingSame(DrainAll(u).s, PassOnce(u).s);
    DrainKeeps(u);
    OvertakenIs(w.s, DrainAll(u).s, PassOnce(u).s, |w.s.pcbs|, f);
  }

  /** With an empty queue, round robin dispatches the first of the newcomers. */
  lemma {:induction false} FirstComeFirst(w: World, late: seq<Sending>, announced: bool)
    requires Inv(w) && Legal(w, Pass(late, announced)) && w.s.current == None && !Done(w.s)
    requires w.s.alg == RR && Front(w.s.queue) == None && w.inbox != [] && ValidMessage(w.inbox[0])
    ensures Next(w, Pass(late, announced)).s.current == Some(|w.s.pcbs|)
  {
    hide LogRight, SpansRight, NothingLost, FinishedOnce, TimeAddsUp, History, Running, NonPreemptive, Lockstep;
    hide PassOnce, PcbInv;
    FrontWaits(w.s);
    PassWithIs(w, late, announced);
    var u := Announce(w, announced);
    IdleDispatches(u);
    ReceiveKeepsMid(u);
    var n: nat := |u.s.pcbs|;
    FrontAfterPut<nat>(u.s.queue, n, 0);
    DrainFront(ReceiveOne(u), n);
    FrontOrMeans(DrainAll(u).s, n, n + 1, 0);
  }

  // ---------- what a tick does ----------

  /** A tick takes one unit from the running process, from nobody else, and ends its run exactly if it was the last. */
  lemma {:induction false} TickTakesOne(w: World)
    requires Inv(w) && Legal(w, Tick)
    ensures var v := Next(w, Tick);
            && |v.s.pcbs| == |w.s.pcbs|
            && (forall i :: 0 <= i < |w.s.pcbs| ==>
                  v.s.pcbs[i].remaining == w.s.pcbs[i].remaining - (if w.s.current == Some(i) then 1 else 0))
            && v.s.current == if w.s.current.Some? && w.s.current.value < |w.s.pcbs|
                                 && w.s.pcbs[w.s.current.value].remaining > 1 then w.s.current else None
  {
    hide LogRight, SpansRight, NothingLost, FinishedOnce, TimeAddsUp, History, Running, NonPreemptive;
    InvBounded(w.s);
    if w.s.current.Some? {
      var c := w.s.current.value;
      if w.s.pcbs[c].remaining > 1 {
        CountHasShape(w, c);
      } else {
        EndHasShape(w, c);
      }
    }
  }
}
