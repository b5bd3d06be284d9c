/**
  The scheduler as a value: its global variables and the functions that change them.
  A pointer to a PCB is the number of that PCB in the order in which the scheduler received them.
 */
module SchedulerModel {
  import opened Options
  import opened HeapSpec
  import opened Processes
  import opened ReadyQueue
  import CQ = CircularQueue

  datatype Algorithm = RR | HPF | SRTN

  /** A line of scheduler.log; turnaround is printed for finished processes only. */
  datatype Event = Event(time: int, slot: nat, state: Phase, remaining: int, wait: int, turnaround: int)

  /** An entry of the execution log: who ran from when to when, with how much left, and whether it finished. */
  datatype Span = Run(slot: nat, from: int, to: int, left: int, finished: bool) | Idle(from: int, to: int)

  datatype Sched = Sched(
    alg: Algorithm,
    quantum: int,
    queue: Queue<nat>,
    pcbs: seq<Pcb>,
    current: Option<nat>,
    lastRemain: int,
    logStart: int,
    lastEnd: int,
    idle: int,
    noMore: bool,
    log: seq<Event>,
    spans: seq<Span>)

  function InitialSched(alg: Algorithm, quantum: int, now: int): Sched {
    Sched(alg, quantum,
          if alg == RR then RingQueue(CQ.RingValue([], 0)) else HeapQueue([]),
          [], None, 0, 0, now, 0, false, [], [])
  }

  /** The current process is one of the received ones, and so is the front of the queue. */
  ghost predicate Bounded(s: Sched) {
    && (s.current.Some? ==> s.current.value < |s.pcbs|)
    && (Front(s.queue).Some? ==> Front(s.queue).value < |s.pcbs|)
  }

  function Logged(s: Sched, c: nat, now: int): Sched
    requires c < |s.pcbs|
  {
    var p := s.pcbs[c];
    s.(log := s.log + [Event(now, c, p.state, p.remaining, p.waitTime,
                             if p.state == Finished then now - p.process.arrival else 0)])
  }

  // ---------- check_for_new_processes ----------

  predicate ValidMessage(m: Pcb) {
    m.pid > 0 && m.process.id > 0 && m.process.runtime > 0
  }

  function ArrivalPriority(alg: Algorithm, m: Pcb): int {
    match alg
    case SRTN => m.remaining
    case HPF => m.process.priority
    case RR => 0
  }

  function Receive(s: Sched, m: Pcb): Sched {
    s.(pcbs := s.pcbs + [m], queue := Put<nat>(s.queue, |s.pcbs|, ArrivalPriority(s.alg, m)))
  }

  /** Takes messages until none is left; an invalid one is dropped and ends the reading. */
  function Drain(s: Sched, inbox: seq<Pcb>): (Sched, seq<Pcb>)
    decreases |inbox|
  {
    if inbox == [] then (s, [])
    else if !ValidMessage(inbox[0]) then (s, inbox[1..])
    else Drain(Receive(s, inbox[0]), inbox[1..])
  }

  // ---------- schedule_next_process ----------

  function ChargeIdle(s: Sched, now: int): Sched {
    if now > s.lastEnd && Size(s.queue) > 0
    then s.(idle := s.idle + (now - s.lastEnd), spans := s.spans + [Idle(s.lastEnd, now)])
    else s
  }

  function Dispatched(p: Pcb, now: int): Pcb {
    if p.startTime == -1
    then p.(state := Started, startTime := now, waitTime := now - p.process.arrival)
    else p.(state := Resumed, waitTime := (now - p.process.arrival) - (p.process.runtime - p.remaining))
  }

  function Schedule(s: Sched, now: int): Sched
    requires Bounded(s)
  {
    match Front(s.queue)
    case None => s
    case Some(c) =>
      Logged(s.(queue := if s.alg == HPF then TakeOut(s.queue) else s.queue,
                pcbs := s.pcbs[c := Dispatched(s.pcbs[c], now)],
                current := Some(c),
                lastRemain := s.pcbs[c].remaining,
                logStart := now),
             c, now)
  }

  // ---------- handle_current_running_process, handle_quantum_expiration ----------

  function Expire(s: Sched, now: int): Sched
    requires Bounded(s)
  {
    match s.current
    case None => s
    case Some(c) =>
      var t := Logged(s.(pcbs := s.pcbs[c := s.pcbs[c].(state := Stopped)]), c, now);
      t.(spans := s.spans + [Run(c, s.logStart, now, s.pcbs[c].remaining, false)],
         lastEnd := now,
         current := None,
         queue := if s.alg == RR then PassOver(s.queue) else s.queue,
         logStart := 0)
  }

  /** The quantum is used up. */
  predicate QuantumOver(s: Sched)
    requires Bounded(s)
  {
    s.current.Some? && s.pcbs[s.current.value].remaining <= s.lastRemain - s.quantum
  }

  function Handle(s: Sched, now: int): Sched
    requires Bounded(s)
  {
    match s.alg
    case RR =>
      if QuantumOver(s) then
        var c := s.current.value;
        Expire(s.(pcbs := s.pcbs[c := s.pcbs[c].(remaining := s.lastRemain - s.quantum)]), now)
      else s
    case HPF =>
      if s.current == None then Schedule(s, now) else s
    case SRTN =>
      if Front(s.queue).Some? && s.current.Some? && Front(s.queue) != s.current then Expire(s, now) else s
  }

  // ---------- the signal handlers ----------

  /** SIGUSR1: the running process has finished. */
  function Terminate(s: Sched, now: int): Sched
    requires Bounded(s) && s.current.Some?
  {
    var c := s.current.value;
    var p := s.pcbs[c];
    var t := Logged(s.(pcbs := s.pcbs[c := p.(remaining := p.remaining - 1, state := Finished)]), c, now);
    t.(spans := s.spans + [Run(c, s.logStart, now, p.remaining - 1, true)],
       lastEnd := now,
       queue := if s.alg == HPF then s.queue else TakeOut(s.queue),
       current := None,
       lastRemain := 0,
       logStart := 0)
  }

  /** SIGUSR2: the running process has used one more unit of time. */
  function CountTick(s: Sched): Sched
    requires Bounded(s) && s.current.Some?
  {
    var c := s.current.value;
    var left := s.pcbs[c].remaining - 1;
    s.(pcbs := s.pcbs[c := s.pcbs[c].(remaining := left)],
       queue := if s.alg == SRTN then Reprioritise(s.queue, 0, left) else s.queue)
  }

  /** The guard of the scheduler's main loop, negated. */
  predicate Done(s: Sched) {
    s.noMore && Size(s.queue) == 0 && s.current == None
  }

  // ---------- the invariant of queue, current process and PCBs ----------

  /** Number i is received, unfinished and, under HPF, not the running process: it belongs in the queue. */
  ghost predicate Waiting(s: Sched, i: nat) {
    i < |s.pcbs| && s.pcbs[i].remaining > 0 && !(s.alg == HPF && s.current == Some(i))
  }

  ghost function Key(s: Sched, i: nat): int
    requires i < |s.pcbs|
  {
    match s.alg
    case RR => 0
    case HPF => -s.pcbs[i].process.priority
    case SRTN => -s.pcbs[i].remaining
  }

  ghost function Wanted(s: Sched): set<PNode<nat>> {
    set i | 0 <= i < |s.pcbs| && Waiting(s, i) :: PNode(i, Key(s, i))
  }

  /** The queue holds each waiting process once, under its key, in the order of its kind. */
  ghost predicate QueueInv(s: Sched) {
    && (s.queue.RingQueue? <==> s.alg == RR)
    && Ordered(s.queue)
    && Bag(s.queue) == multiset(Wanted(s))
  }

  ghost predicate PcbInv(p: Pcb) {
    && p.process.runtime >= 1 && 0 <= p.remaining <= p.process.runtime
    && (p.startTime == -1 ==> p.remaining == p.process.runtime)
    && (p.remaining == 0 <==> p.state == Finished)
  }

  ghost predicate SchedInv(s: Sched) {
    && QueueInv(s)
    && (forall i :: 0 <= i < |s.pcbs| ==> PcbInv(s.pcbs[i]))
    && (s.current.Some? ==> s.current.value < |s.pcbs| && s.pcbs[s.current.value].remaining > 0
                            && s.pcbs[s.current.value].startTime != -1)
    && s.quantum >= 1
  }

  /** Except under HPF the running process stays at the front of the queue. */
  ghost predicate FrontInv(s: Sched) {
    s.alg != HPF && s.current.Some? ==> Front(s.queue) == s.current
  }

  lemma WantedNode(s: Sched, n: PNode<nat>)
    ensures n in Wanted(s) <==> Waiting(s, n.item) && n.priority == Key(s, n.item)
  {
    if Waiting(s, n.item) && n.priority == Key(s, n.item) {
      assert PNode(n.item, Key(s, n.item)) == n;
    }
  }

  /** The front of the queue is a waiting process with the least number among the waiting. */
  lemma FrontWaits(s: Sched)
    requires QueueInv(s)
    ensures Bounded(s) || s.current.Some?
    ensures Front(s.queue).None? <==> Size(s.queue) == 0
    ensures Front(s.queue).None? ==> forall i: nat :: !Waiting(s, i)
    ensures Front(s.queue).Some? ==>
              var c := Front(s.queue).value;
              && Waiting(s, c) && FrontNode(s.queue) == PNode(c, Key(s, c))
              && forall i: nat :: Waiting(s, i) ==> Key(s, c) >= Key(s, i)
  {
    FrontInBag(s.queue);
    if Size(s.queue) > 0 {
      var n := FrontNode(s.queue);
      WantedNode(s, n);
      FrontIsLeast(s.queue);
    }
    forall i: nat | Waiting(s, i)
      ensures PNode(i, Key(s, i)) in Bag(s.queue)
    {
      WantedNode(s, PNode(i, Key(s, i)));
    }
  }

  lemma InvBounded(s: Sched)
    requires SchedInv(s)
    ensures Bounded(s)
  {
    FrontWaits(s);
  }

  lemma InitialInv(alg: Algorithm, quantum: int, now: int)
    requires quantum >= 1
    ensures SchedInv(InitialSched(alg, quantum, now)) && FrontInv(InitialSched(alg, quantum, now))
  {
    var s := InitialSched(alg, quantum, now);
    assert Wanted(s) == {};
    FrontInBag(s.queue);
    assert Size(s.queue) == 0;
  }

  // ---------- every function keeps the invariant ----------

  ghost predicate FreshPcb(m: Pcb) {
    m.remaining == m.process.runtime && m.startTime == -1 && m.state == Created
  }

  lemma MultisetPlus<T>(w: set<T>, n: T)
    requires n !in w
    ensures multiset(w + {n}) == multiset(w) + multiset{n}
  {
  }

  lemma MultisetMinus<T>(w: set<T>, n: T)
    requires n in w
    ensures multiset(w - {n}) == multiset(w) - multiset{n}
  {
  }

  lemma WantedAfterReceive(s: Sched, m: Pcb)
    requires m.remaining > 0 && (s.current.Some? ==> s.current.value < |s.pcbs|)
    ensures var node := PNode(|s.pcbs|, -ArrivalPriority(s.alg, m));
            node !in Wanted(s) && Wanted(Receive(s, m)) == Wanted(s) + {node}
  {
    var t := Receive(s, m);
    var node := PNode(|s.pcbs|, -ArrivalPriority(s.alg, m));
    forall x: PNode<nat>
      ensures x in Wanted(t) <==> x in Wanted(s) + {node}
    {
      WantedNode(t, x);
      WantedNode(s, x);
    }
    WantedNode(s, node);
  }

  lemma ReceiveQueue(s: Sched, m: Pcb)
    requires QueueInv(s) && m.remaining > 0 && (s.current.Some? ==> s.current.value < |s.pcbs|)
    ensures QueueInv(Receive(s, m))
  {
    var n: nat := |s.pcbs|;
    PutKeeps<nat>(s.queue, n, ArrivalPriority(s.alg, m));
    WantedAfterReceive(s, m);
    MultisetPlus(Wanted(s), PNode(n, -ArrivalPriority(s.alg, m)));
  }

  lemma ReceiveKeeps(s: Sched, m: Pcb)
    requires SchedInv(s) && FreshPcb(m) && ValidMessage(m)
    ensures SchedInv(Receive(s, m))
    ensures s.alg == RR && FrontInv(s) ==> FrontInv(Receive(s, m))
  {
    ReceiveQueue(s, m);
    if s.alg == RR && s.current.Some? {
      FrontWaits(s);
      PutKeeps<nat>(s.queue, |s.pcbs|, 0);
    }
  }

  lemma ChargeIdleKeeps(s: Sched, now: int)
    requires SchedInv(s)
    ensures SchedInv(ChargeIdle(s, now))
  {
    assert Wanted(ChargeIdle(s, now)) == Wanted(s) by {
      forall x: PNode<nat>
        ensures x in Wanted(ChargeIdle(s, now)) <==> x in Wanted(s)
      {
        WantedNode(s, x);
        WantedNode(ChargeIdle(s, now), x);
      }
    }
  }

  lemma ScheduleQueue(s: Sched, now: int)
    requires QueueInv(s) && Bounded(s) && s.current == None
    ensures QueueInv(Schedule(s, now)) && FrontInv(Schedule(s, now))
  {
    FrontWaits(s);
    if Front(s.queue).Some? {
      var c := Front(s.queue).value;
      var t := Schedule(s, now);
      var node := PNode(c, Key(s, c));
      forall x: PNode<nat>
        ensures x in Wanted(t) <==> x in (if s.alg == HPF then Wanted(s) - {node} else Wanted(s))
      {
        WantedNode(t, x);
        WantedNode(s, x);
      }
      if s.alg == HPF {
        TakeOutKeeps(s.queue);
        assert Wanted(t) == Wanted(s) - {node};
      } else {
        assert Wanted(t) == Wanted(s);
      }
    }
  }

  lemma ScheduleKeeps(s: Sched, now: int)
    requires SchedInv(s) && s.current == None && now >= 0
    ensures Bounded(s) && SchedInv(Schedule(s, now)) && FrontInv(Schedule(s, now))
  {
    FrontWaits(s);
    InvBounded(s);
    ScheduleQueue(s, now);
  }

  lemma ExpireKeeps(s: Sched, now: int)
    requires SchedInv(s) && s.alg != HPF
    ensures Bounded(s) && SchedInv(Expire(s, now)) && FrontInv(Expire(s, now))
  {
    InvBounded(s);
    if s.current.Some? {
      var t := Expire(s, now);
      forall x: PNode<nat>
        ensures x in Wanted(t) <==> x in Wanted(s)
      {
        WantedNode(t, x);
        WantedNode(s, x);
      }
      assert Wanted(t) == Wanted(s);
      if s.alg == RR {
        PassOverKeeps(s.queue);
      }
    }
  }

  lemma WantedAfterTick(s: Sched, c: nat, before: PNode<nat>, after: PNode<nat>)
    requires Bounded(s) && s.alg == SRTN && s.current == Some(c) && s.pcbs[c].remaining > 1
    requires before == PNode(c, -s.pcbs[c].remaining) && after == PNode(c, -(s.pcbs[c].remaining - 1))
    ensures before in Wanted(s) && after !in Wanted(s)
    ensures Wanted(CountTick(s)) == Wanted(s) - {before} + {after}
    ensures multiset(Wanted(CountTick(s))) == multiset(Wanted(s)) - multiset{before} + multiset{after}
  {
    var t := CountTick(s);
    forall x: PNode<nat>
      ensures x in Wanted(t) <==> x in Wanted(s) - {before} + {after}
    {
      WantedNode(t, x);
      WantedNode(s, x);
    }
    WantedNode(s, before);
    WantedNode(s, after);
    MultisetMinus(Wanted(s), before);
    MultisetPlus(Wanted(s) - {before}, after);
  }

  lemma CountTickSrtn(s: Sched)
    requires QueueInv(s) && Bounded(s) && s.alg == SRTN && s.current.Some? && Front(s.queue) == s.current
    requires s.pcbs[s.current.value].remaining > 1
    ensures QueueInv(CountTick(s)) && Front(CountTick(s).queue) == s.current
  {
    FrontWaits(s);
    var c := s.current.value;
    var before, after := PNode(c, -s.pcbs[c].remaining), PNode(c, -(s.pcbs[c].remaining - 1));
    assert FrontNode(s.queue) == before;
    ReprioritiseFront(s.queue, s.pcbs[c].remaining - 1);
    WantedAfterTick(s, c, before, after);
  }

  lemma CountTickOther(s: Sched)
    requires QueueInv(s) && Bounded(s) && s.alg != SRTN && s.current.Some?
    requires s.pcbs[s.current.value].remaining > 1
    ensures QueueInv(CountTick(s))
  {
    var t := CountTick(s);
    forall x: PNode<nat>
      ensures x in Wanted(t) <==> x in Wanted(s)
    {
      WantedNode(t, x);
      WantedNode(s, x);
    }
    assert Wanted(t) == Wanted(s);
  }

  lemma CountTickKeeps(s: Sched)
    requires SchedInv(s) && FrontInv(s) && s.current.Some? && s.pcbs[s.current.value].remaining > 1
    ensures Bounded(s) && SchedInv(CountTick(s)) && FrontInv(CountTick(s))
  {
    InvBounded(s);
    if s.alg == SRTN {
      CountTickSrtn(s);
    } else {
      CountTickOther(s);
    }
  }

  lemma TerminateKeeps(s: Sched, now: int)
    requires SchedInv(s) && FrontInv(s) && s.current.Some? && s.pcbs[s.current.value].remaining == 1
    ensures Bounded(s) && SchedInv(Terminate(s, now)) && FrontInv(Terminate(s, now))
  {
    InvBounded(s);
    TerminateQueue(s, now);
    hide QueueInv;
  }

  lemma WantedAfterEnd(s: Sched, now: int, c: nat)
    requires Bounded(s) && s.current == Some(c) && s.pcbs[c].remaining == 1
    ensures Wanted(Terminate(s, now)) == if s.alg == HPF then Wanted(s) else Wanted(s) - {PNode(c, Key(s, c))}
  {
    var t := Terminate(s, now);
    var node := PNode(c, Key(s, c));
    forall x: PNode<nat>
      ensures x in Wanted(t) <==> x in (if s.alg == HPF then Wanted(s) else Wanted(s) - {node})
    {
      WantedNode(t, x);
      WantedNode(s, x);
    }
  }

  lemma TerminateQueue(s: Sched, now: int)
    requires QueueInv(s) && FrontInv(s) && Bounded(s) && s.current.Some? && s.pcbs[s.current.value].remaining == 1
    ensures QueueInv(Terminate(s, now))
  {
    hide Wanted;
    FrontWaits(s);
    var c := s.current.value;
    WantedAfterEnd(s, now, c);
    if s.alg != HPF {
      TakeOutKeeps(s.queue);
      WantedNode(s, PNode(c, Key(s, c)));
      MultisetMinus(Wanted(s), PNode(c, Key(s, c)));
    }
  }
}
