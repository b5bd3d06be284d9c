/**
  The scheduler with its global variables, updated in place by the main loop and the signal handlers.
  The PCBs it has received are numbered; the ready queue and the current pointer share them by number.
  Each method performs the function of the same purpose in SchedulerModel.
 */
module Scheduler {
  import opened Options
  import opened ReadyQueue
  import opened Processes
  import opened SchedulerModel

  class Scheduler {
    const alg: Algorithm
    const quantum: int
    const ready: IQueue<nat>
    var pcbs: seq<Pcb>
    var current: Option<nat>
    var lastRemain: int
    var logStart: int
    var lastEnd: int
    var idle: int
    var noMore: bool
    ghost var log: seq<Event>    // what log_event has printed
    ghost var spans: seq<Span>   // what went to the execution log

    ghost predicate Valid()
      reads this, ready, ready.Repr()
    {
      ready.Valid() && this !in ready.Repr()
    }

    /** The global variables as a value. */
    ghost function Value(): Sched
      requires Valid()
      reads this, ready, ready.Repr()
    {
      Sched(alg, quantum, ready.Value(), pcbs, current, lastRemain, logStart, lastEnd, idle, noMore, log, spans)
    }

    constructor (alg: Algorithm, quantum: int, now: int)
      ensures Valid() && Value() == InitialSched(alg, quantum, now)
      ensures fresh(ready) && fresh(ready.Repr())
    {
      this.alg, this.quantum := alg, quantum;
      ready := new IQueue<nat>(alg == RR);
      pcbs, current := [], None;
      lastRemain, logStart, lastEnd, idle := 0, 0, now, 0;
      noMore := false;
      log, spans := [], [];
    }

    /** log_event: a line of scheduler.log about process c. */
    ghost method LogEvent(c: nat, now: int)
      requires Valid() && c < |pcbs|
      modifies this`log
      ensures Valid() && Value() == Logged(old(Value()), c, now)
    {
      var p := pcbs[c];
      log := log + [Event(now, c, p.state, p.remaining, p.waitTime,
                          if p.state == Finished then now - p.process.arrival else 0)];
    }

    // ---------- the main loop ----------

    method ReceiveMessage(m: Pcb)
      requires Valid()
      modifies this`pcbs, ready.Repr()
      ensures Valid() && fresh(ready.Repr() - old(ready.Repr()))
      ensures Value() == Receive(old(Value()), m)
    {
      var pcb: nat := |pcbs|;
      pcbs := pcbs + [m];
      match alg {
        case SRTN => ready.Enqueue(pcb, m.remaining);
        case HPF => ready.Enqueue(pcb, m.process.priority);
        case RR => ready.Enqueue(pcb, 0);
      }
    }

    /** Reads the message queue; what is left unread is returned. */
    method CheckForNewProcesses(inbox: seq<Pcb>) returns (rest: seq<Pcb>)
      requires Valid()
      modifies this`pcbs, ready.Repr()
      ensures Valid() && fresh(ready.Repr() - old(ready.Repr()))
      ensures (Value(), rest) == Drain(old(Value()), inbox)
    {
      rest := inbox;
      while rest != []
        invariant Valid() && fresh(ready.Repr() - old(ready.Repr()))
        invariant Drain(Value(), rest) == Drain(old(Value()), inbox)
        decreases |rest|
      {
        var msg := rest[0];
        rest := rest[1..];
        if msg.pid <= 0 || msg.process.id <= 0 || msg.process.runtime <= 0 {
          return;
        }
        ReceiveMessage(msg);
      }
    }

    method ScheduleNextProcess(now: int)
      requires Valid() && Bounded(Value())
      modifies this, ready.Repr()
      ensures Valid() && fresh(ready.Repr() - old(ready.Repr()))
      ensures Value() == Schedule(old(Value()), now)
    {
      var front;
      if alg == HPF {
        front := ready.DequeueFront(true);
      } else {
        front := ready.GetFront();
      }
      if front != None {
        StartOrResume(front.value, now);
      }
    }

    /** The second half of schedule_next_process: its bookkeeping for the chosen process. */
    method StartOrResume(c: nat, now: int)
      requires Valid() && c < |pcbs|
      modifies this
      ensures Valid()
      ensures var s := old(Value());
              Value() == Logged(s.(pcbs := s.pcbs[c := Dispatched(s.pcbs[c], now)], current := Some(c),
                                   lastRemain := s.pcbs[c].remaining, logStart := now), c, now)
    {
      hide IQueue.Valid, IQueue.Value, Logged;
      var p := pcbs[c];
      if p.startTime == -1 {
        p := p.(state := Started, startTime := now, waitTime := now - p.process.arrival);
      } else {
        p := p.(state := Resumed, waitTime := (now - p.process.arrival) - (p.process.runtime - p.remaining));
      }
      pcbs := pcbs[c := p];
      current := Some(c);
      lastRemain := p.remaining;
      logStart := now;
      LogEvent(c, now);
    }

    method AccountIdle(now: int)
      requires Valid()
      modifies this`idle, this`spans
      ensures Valid() && Value() == ChargeIdle(old(Value()), now)
    {
      var empty := ready.IsEmpty();
      if now > lastEnd && !empty {
        spans := spans + [Idle(lastEnd, now)];
        idle := idle + (now - lastEnd);
      }
    }

    method HandleQuantumExpiration(now: int)
      requires Valid() && Bounded(Value())
      modifies this, ready.Repr()
      ensures Valid() && fresh(ready.Repr() - old(ready.Repr()))
      ensures Value() == Expire(old(Value()), now)
    {
      if current == None {
        return;
      }
      StopCurrent(now);
      if alg == RR {
        var _ := ready.DequeueFront(false);
      }
    }

    /** The bookkeeping of handle_quantum_expiration. */
    method StopCurrent(now: int)
      requires Valid() && current.Some? && current.value < |pcbs|
      modifies this
      ensures Valid()
      ensures var s := old(Value());
              var c := s.current.value;
              Value() == Logged(s.(pcbs := s.pcbs[c := s.pcbs[c].(state := Stopped)]), c, now).(
                           spans := s.spans + [Run(c, s.logStart, now, s.pcbs[c].remaining, false)],
                           lastEnd := now, current := None, logStart := 0)
    {
      hide IQueue.Valid, IQueue.Value;
      var c := current.value;
      spans := spans + [Run(c, logStart, now, pcbs[c].remaining, false)];
      lastEnd := now;
      pcbs := pcbs[c := pcbs[c].(state := Stopped)];
      LogEvent(c, now);
      current := None;
      logStart := 0;
    }

    method HandleCurrentRunningProcess(now: int)
      requires Valid() && Bounded(Value())
      modifies this, ready.Repr()
      ensures Valid() && fresh(ready.Repr() - old(ready.Repr()))
      ensures Value() == Handle(old(Value()), now)
    {
      match alg {
        case RR => HandleRoundRobin(now);
        case HPF =>
          if current == None {
            ScheduleNextProcess(now);
          }
        case SRTN => HandleShortestRemaining(now);
      }
    }

    /** The round-robin branch: clamp the remaining time and expire. */
    method HandleRoundRobin(now: int)
      requires Valid() && Bounded(Value()) && alg == RR
      modifies this, ready.Repr()
      ensures Valid() && fresh(ready.Repr() - old(ready.Repr()))
      ensures Value() == Handle(old(Value()), now)
    {
      hide IQueue.Valid, IQueue.Value, Expire, Schedule;
      if current != None && pcbs[current.value].remaining <= lastRemain - quantum {
        Clamp();
        HandleQuantumExpiration(now);
      }
    }

    method Clamp()
      requires Valid() && current.Some? && current.value < |pcbs|
      modifies this`pcbs
      ensures Valid()
      ensures var s := old(Value());
              var c := s.current.value;
              Value() == s.(pcbs := s.pcbs[c := s.pcbs[c].(remaining := s.lastRemain - s.quantum)])
    {
      pcbs := pcbs[current.value := pcbs[current.value].(remaining := lastRemain - quantum)];
    }

    /** The SRTN branch: another process in front of the queue has less time left. */
    method HandleShortestRemaining(now: int)
      requires Valid() && Bounded(Value()) && alg == SRTN
      modifies this, ready.Repr()
      ensures Valid() && fresh(ready.Repr() - old(ready.Repr()))
      ensures Value() == Handle(old(Value()), now)
    {
      var next := ready.GetFront();
      if next == None {
        return;
      }
      if current != None && next != current {
        HandleQuantumExpiration(now);
      }
    }

    /** The middle of the loop body. */
    method StartIfIdle(now: int)
      requires Valid() && Bounded(Value())
      modifies this, ready.Repr()
      ensures Valid() && fresh(ready.Repr() - old(ready.Repr()))
      ensures var s := old(Value());
              Bounded(ChargeIdle(s, now)) &&
              Value() == if s.current == None then Schedule(ChargeIdle(s, now), now) else s
    {
      if current == None {
        AccountIdle(now);
        ScheduleNextProcess(now);
      }
    }

    /** One pass of scheduler_loop; what is left unread in the message queue is returned. */
    method LoopPass(inbox: seq<Pcb>, closed: bool, now: int, ghost drained: Sched, ghost started: Sched)
      returns (rest: seq<Pcb>)
      requires Valid() && drained == Drain(Value(), inbox).0 && Bounded(drained)
      requires Bounded(ChargeIdle(drained, now))
      requires started == (if drained.current == None then Schedule(ChargeIdle(drained, now), now) else drained)
      requires Bounded(started)
      modifies this, ready.Repr()
      ensures Valid() && fresh(ready.Repr() - old(ready.Repr()))
      ensures Value() == Handle(started, now).(noMore := Handle(started, now).noMore || closed)
      ensures rest == Drain(old(Value()), inbox).1
    {
      hide Schedule, Handle, Drain, ChargeIdle, Bounded;
      rest := ReceiveAndStart(inbox, now, drained);
      HandleCurrentRunningProcess(now);
      CheckNoMoreProcesses(closed);
    }

    /** The first half of the loop body. */
    method ReceiveAndStart(inbox: seq<Pcb>, now: int, ghost drained: Sched) returns (rest: seq<Pcb>)
      requires Valid() && drained == Drain(Value(), inbox).0 && Bounded(drained)
      requires Bounded(ChargeIdle(drained, now))
      modifies this, ready.Repr()
      ensures Valid() && fresh(ready.Repr() - old(ready.Repr()))
      ensures Value() == if drained.current == None then Schedule(ChargeIdle(drained, now), now) else drained
      ensures rest == Drain(old(Value()), inbox).1
    {
      rest := CheckForNewProcesses(inbox);
      StartIfIdle(now);
    }

    method CheckNoMoreProcesses(closed: bool)
      requires Valid()
      modifies this`noMore
      ensures Valid() && Value() == old(Value()).(noMore := old(noMore) || closed)
    {
      if closed {
        noMore := true;
      }
    }

    // ---------- the signal handlers ----------

    method HandleProcessTermination(now: int)
      requires Valid() && Bounded(Value()) && current.Some?
      modifies this, ready.Repr()
      ensures Valid() && fresh(ready.Repr() - old(ready.Repr()))
      ensures Value() == Terminate(old(Value()), now)
    {
      if alg != HPF {
        var _ := ready.DequeueFront(true);
      }
      FinishCurrent(now);
    }

    /** The bookkeeping of handle_process_termination. */
    method FinishCurrent(now: int)
      requires Valid() && current.Some? && current.value < |pcbs|
      modifies this
      ensures Valid()
      ensures var s := old(Value());
              var c := s.current.value;
              var left := s.pcbs[c].remaining - 1;
              Value() == Logged(s.(pcbs := s.pcbs[c := s.pcbs[c].(remaining := left, state := Finished)]), c, now).(
                           spans := s.spans + [Run(c, s.logStart, now, left, true)],
                           lastEnd := now, current := None, lastRemain := 0, logStart := 0)
    {
      hide IQueue.Valid, IQueue.Value;
      var c := current.value;
      RecordEnd(c, now);
      CountLast(c);
      LogEvent(c, now);
      ForgetCurrent();
    }

    /** The entry in the execution log. */
    method RecordEnd(c: nat, now: int)
      requires Valid() && c < |pcbs|
      modifies this`spans, this`lastEnd
      ensures Valid()
      ensures var s := old(Value());
              Value() == s.(spans := s.spans + [Run(c, s.logStart, now, s.pcbs[c].remaining - 1, true)], lastEnd := now)
    {
      hide IQueue.Valid, IQueue.Value;
      spans := spans + [Run(c, logStart, now, pcbs[c].remaining - 1, true)];
      lastEnd := now;
    }

    method CountLast(c: nat)
      requires Valid() && c < |pcbs|
      modifies this`pcbs
      ensures Valid()
      ensures var s := old(Value());
              Value() == s.(pcbs := s.pcbs[c := s.pcbs[c].(remaining := s.pcbs[c].remaining - 1, state := Finished)])
    {
      hide IQueue.Valid, IQueue.Value;
      pcbs := pcbs[c := pcbs[c].(remaining := pcbs[c].remaining - 1, state := Finished)];
    }

    method ForgetCurrent()
      requires Valid()
      modifies this`current, this`lastRemain, this`logStart
      ensures Valid() && Value() == old(Value()).(current := None, lastRemain := 0, logStart := 0)
    {
      hide IQueue.Valid, IQueue.Value;
      current := None;
      lastRemain := 0;
      logStart := 0;
    }

    method HandleProcessTick()
      requires Valid() && Bounded(Value()) && current.Some?
      modifies this`pcbs, ready.Repr()
      ensures Valid() && fresh(ready.Repr() - old(ready.Repr()))
      ensures Value() == CountTick(old(Value()))
    {
      var c := current.value;
      pcbs := pcbs[c := pcbs[c].(remaining := pcbs[c].remaining - 1)];
      if alg == SRTN {
        ready.ChangePriorityAt(0, pcbs[c].remaining);
      }
    }
  }
}
