/**
  The scheduler among the processes, the clock and the message queue, as a state machine.
  A run is a sequence of steps: a message becomes available, the main loop makes one pass, the clock
  advances by one unit (the running process counts it and the scheduler handles the signal), or the
  generator announces that there are no more processes.
 */
module World {
  import opened Options
  import opened Processes
  import opened SchedulerModel
  import opened UserProcess

  /** A dispatch: which process, how many had been received by then, and who was unfinished. */
  datatype Dispatch = Dispatch(slot: nat, received: nat, unfinished: set<nat>)

  ghost function Unfinished(s: Sched): set<nat> {
    set i: nat | i < |s.pcbs| && s.pcbs[i].remaining > 0
  }

  datatype World = World(
    origin: nat,                      // the clock when the scheduler started
    s: Sched,
    procs: seq<Proc>,
    clock: nat,
    inbox: seq<Pcb>,                  // messages sent and not yet received
    closed: bool,                     // "no_more_processes" was sent
    polled: bool,                     // the main loop has made a pass since the last tick
    timeline: seq<Option<nat>>,       // history: who ran during each clock unit
    sent: seq<Pcb>,                   // history: all messages
    dispatches: seq<Dispatch>)        // history: all dispatches

  /** The timeline of n units in which nobody ran. */
  ghost function Nobody(n: nat): (t: seq<Option<nat>>)
    ensures |t| == n && forall u :: 0 <= u < n ==> t[u] == None
  {
    if n == 0 then [] else Nobody(n - 1) + [None]
  }

  ghost function Start(alg: Algorithm, quantum: int, origin: nat): World {
    World(origin, InitialSched(alg, quantum, origin), [], origin, [], false, false,
          Nobody(origin), [], [])
  }

  /** What the generator sends for one process. */
  datatype Sending = Sending(pid: int, process: Process)

  /**
    A pass names the messages that arrive after it has read the message queue, and says whether the
    announcement comes in time for its end.
   */
  datatype Step = Arrive(m: Sending) | Pass(late: seq<Sending>, announced: bool) | Tick | Close

  ghost predicate SameConfiguration(v: World, w: World) {
    v.s.alg == w.s.alg && v.s.quantum == w.s.quantum && v.origin == w.origin
  }

  ghost predicate SameSurroundings(v: World, w: World) {
    && v.inbox == w.inbox && v.sent == w.sent && v.closed == w.closed
    && v.clock == w.clock && v.timeline == w.timeline && v.polled == w.polled
  }

  // ---------- the steps ----------

  ghost function Posted(late: seq<Sending>): (ms: seq<Pcb>)
    ensures |ms| == |late|
  {
    seq(|late|, i requires 0 <= i < |late| => NewPcb(late[i].pid, late[i].process))
  }

  /** Messages become available. */
  ghost function Deliver(w: World, late: seq<Sending>): World {
    w.(inbox := w.inbox + Posted(late), sent := w.sent + Posted(late))
  }

  ghost function Announce(w: World, announced: bool): World {
    w.(closed := w.closed || announced)
  }

  /** The scheduler's new state; SIGCONT reaches a process that was just dispatched. */
  ghost function Commit(w: World, t: Sched): World
    requires t.current.Some? ==> t.current.value < |w.procs|
  {
    if w.s.current == None && t.current.Some? then
      var c := t.current.value;
      w.(s := t, procs := w.procs[c := Continue(w.procs[c], w.clock)],
         dispatches := w.dispatches + [Dispatch(c, |t.pcbs|, Unfinished(t))])
    else w.(s := t)
  }

  ghost function ReceiveOne(w: World): World
    requires w.inbox != []
  {
    w.(s := Receive(w.s, w.inbox[0]),
       procs := w.procs + [Proc(w.inbox[0].process.runtime, 0)],
       inbox := w.inbox[1..])
  }

  ghost function DrainAll(w: World): (v: World)
    ensures SameConfiguration(w, v)
    decreases |w.inbox|
  {
    if w.inbox == [] then w
    else if !ValidMessage(w.inbox[0]) then w.(inbox := w.inbox[1..])
    else DrainAll(ReceiveOne(w))
  }

  /** The middle of the loop body: if nothing runs, account for idle time and dispatch the front. */
  ghost function StartNext(w: World): (v: World)
    requires Bounded(w.s) && |w.procs| == |w.s.pcbs|
    ensures SameConfiguration(w, v) && SameSurroundings(w, v)
  {
    if w.s.current == None
    then Commit(w, Schedule(ChargeIdle(w.s, w.clock), w.clock))
    else w
  }

  ghost function HandleCurrent(w: World): (v: World)
    requires Bounded(w.s) && |w.procs| == |w.s.pcbs|
    ensures SameConfiguration(w, v) && SameSurroundings(w, v)
  {
    Commit(w, Handle(w.s, w.clock))
  }

  /** One unit of time passes. */
  ghost function TickOnce(w: World): (v: World)
    requires Bounded(w.s) && |w.procs| == |w.s.pcbs|
    ensures SameConfiguration(w, v)
  {
    var clock := w.clock + 1;
    var v := w.(clock := clock, timeline := w.timeline + [w.s.current], polled := false);
    match w.s.current
    case None => v
    case Some(c) =>
      var (p, signal) := Poll(w.procs[c], clock);
      var u := v.(procs := w.procs[c := p]);
      match signal
      case None => u
      case Some(Usr1) => u.(s := Terminate(w.s, clock))
      case Some(Usr2) => u.(s := CountTick(w.s))
  }

  // ---------- counting on the timeline ----------

  /** During how many units process i ran. */
  ghost function Ran(t: seq<Option<nat>>, i: nat): nat {
    if t == [] then 0
    else Ran(t[..|t| - 1], i) + (if t[|t| - 1] == Some(i) then 1 else 0)
  }

  /** During how many units from a on process i did not run. */
  ghost function Waited(t: seq<Option<nat>>, a: int, i: nat): nat {
    if |t| <= a || t == [] then 0
    else Waited(t[..|t| - 1], a, i) + (if t[|t| - 1] == Some(i) then 0 else 1)
  }

  ghost function IdleUnits(t: seq<Option<nat>>): nat {
    if t == [] then 0
    else IdleUnits(t[..|t| - 1]) + (if t[|t| - 1] == None then 1 else 0)
  }

  lemma OneMore(t: seq<Option<nat>>, x: Option<nat>, a: int, i: nat)
    ensures Ran(t + [x], i) == Ran(t, i) + (if x == Some(i) then 1 else 0)
    ensures a <= |t| ==> Waited(t + [x], a, i) == Waited(t, a, i) + (if x == Some(i) then 0 else 1)
    ensures IdleUnits(t + [x]) == IdleUnits(t) + (if x == None then 1 else 0)
  {
    var u := t + [x];
    assert u[..|u| - 1] == t && u[|u| - 1] == x;
  }

  lemma {:induction false} NeverRan(t: seq<Option<nat>>, i: nat)
    requires forall u :: 0 <= u < |t| ==> t[u] != Some(i)
    ensures Ran(t, i) == 0
  {
    if t == [] {
    } else {
      NeverRan(t[..|t| - 1], i);
    }
  }

  lemma {:induction false} AllIdle(n: nat)
    ensures IdleUnits(Nobody(n)) == n
  {
    if n == 0 {
    } else {
      AllIdle(n - 1);
      OneMore(Nobody(n - 1), None, 0, 0);
    }
  }

  /** Every unit since a is spent either running or waiting. */
  lemma {:induction false} RanPlusWaited(t: seq<Option<nat>>, a: nat, i: nat)
    requires a <= |t| && Ran(t[..a], i) == 0
    ensures Waited(t, a, i) + Ran(t, i) == |t| - a
    decreases |t|
  {
    if |t| == a {
      assert t[..a] == t;
    } else {
      var r := t[..|t| - 1];
      assert r[..a] == t[..a];
      RanPlusWaited(r, a, i);
    }
  }

  // ---------- the invariants ----------

  /** Lockstep: the scheduler's remaining_time is the process's own counter. */
  ghost predicate Lockstep(w: World) {
    && |w.procs| == |w.s.pcbs|
    && (forall i :: 0 <= i < |w.procs| ==> w.procs[i].left == w.s.pcbs[i].remaining)
    && (w.s.current.Some? ==> w.s.current.value < |w.procs| && w.procs[w.s.current.value].lastClk == w.clock)
  }

  ghost predicate PcbRight(t: seq<Option<nat>>, p: Pcb, i: nat) {
    && 0 <= p.process.arrival <= |t|
    && Ran(t[..p.process.arrival], i) == 0
    && p.remaining == p.process.runtime - Ran(t, i)
  }

  /** The timeline covers the clock, and accounts for what each process has left. */
  ghost predicate History(w: World) {
    && |w.timeline| == w.clock
    && (forall u :: 0 <= u < |w.timeline| ==> w.timeline[u] == None || w.timeline[u].value < |w.s.pcbs|)
    && (forall i :: 0 <= i < |w.s.pcbs| ==> PcbRight(w.timeline, w.s.pcbs[i], i))
    && (forall k :: 0 <= k < |w.inbox| ==> FreshPcb(w.inbox[k]) && 0 <= w.inbox[k].process.arrival <= w.clock)
  }

  /** The timeline shows x throughout [a, b). */
  ghost predicate Shows(t: seq<Option<nat>>, a: int, b: int, x: Option<nat>) {
    0 <= a <= b <= |t| && forall u :: a <= u < b ==> t[u] == x
  }

  /** What holds of the running process and its slice. */
  ghost predicate Running(w: World) {
    w.s.current.Some? && w.s.current.value < |w.s.pcbs| ==>
      var c := w.s.current.value;
      var p := w.s.pcbs[c];
      && Shows(w.timeline, w.s.logStart, w.clock, Some(c))
      && w.clock - w.s.logStart == w.s.lastRemain - p.remaining
      && p.waitTime == Waited(w.timeline, p.process.arrival, c)
      && (w.s.alg == RR ==> w.s.lastRemain - p.remaining <= w.s.quantum)
      && (w.s.alg == RR && w.polled ==> w.s.lastRemain - p.remaining < w.s.quantum)
      && (w.s.alg == HPF ==> w.s.lastRemain == p.process.runtime)
  }

  /** Under HPF whoever is not running has either not begun or finished. */
  ghost predicate NonPreemptive(s: Sched) {
    s.alg == HPF ==>
      forall i :: 0 <= i < |s.pcbs| && s.current != Some(i) ==>
        s.pcbs[i].remaining == 0 || s.pcbs[i].remaining == s.pcbs[i].process.runtime
  }

  // ---------- the clock adds up ----------

  ghost function SpanTotal(spans: seq<Span>): int {
    if spans == [] then 0
    else
      var x := spans[|spans| - 1];
      SpanTotal(spans[..|spans| - 1]) + (if x.Run? then x.to - x.from else 0)
  }

  lemma OneMoreSpan(spans: seq<Span>, x: Span)
    ensures SpanTotal(spans + [x]) == SpanTotal(spans) + (if x.Run? then x.to - x.from else 0)
  {
    var u := spans + [x];
    assert u[..|u| - 1] == spans && u[|u| - 1] == x;
  }

  /** Where the accounted time ends: the start of the running slice, or the end of the last one. */
  ghost function Frontier(s: Sched): int {
    if s.current.Some? then s.logStart else s.lastEnd
  }

  /** Start clock, idle time and closed slices add up to the frontier, and idle_time counts idle units. */
  ghost predicate TimeAddsUp(w: World) {
    && w.origin <= w.s.lastEnd <= w.clock
    && w.origin + w.s.idle + SpanTotal(w.s.spans) == Frontier(w.s)
    && IdleUnits(w.timeline) == w.origin + w.s.idle + (if w.s.current == None then w.clock - w.s.lastEnd else 0)
    && (w.s.current == None ==> Shows(w.timeline, w.s.lastEnd, w.clock, None))
  }

  // ---------- the logs are right ----------

  /** A line of scheduler.log tells the truth about the process at that time. */
  ghost predicate EventRight(t: seq<Option<nat>>, p: Process, e: Event) {
    && 0 <= p.arrival <= e.time <= |t|
    && e.remaining == p.runtime - Ran(t[..e.time], e.slot)
    && e.wait == Waited(t[..e.time], p.arrival, e.slot)
    && (e.state == Finished ==> e.remaining == 0 && e.turnaround == e.time - p.arrival == e.wait + p.runtime)
  }

  ghost predicate LogRight(w: World) {
    forall k :: 0 <= k < |w.s.log| ==>
      && w.s.log[k].slot < |w.s.pcbs|
      && EventRight(w.timeline, w.s.pcbs[w.s.log[k].slot].process, w.s.log[k])
  }

  ghost function FinishedLines(log: seq<Event>, i: nat): nat {
    if log == [] then 0
    else
      FinishedLines(log[..|log| - 1], i)
      + (if log[|log| - 1].slot == i && log[|log| - 1].state == Finished then 1 else 0)
  }

  /** A process is reported as finished once when it has nothing left, and not before. */
  ghost predicate FinishedOnce(s: Sched) {
    && (forall k :: 0 <= k < |s.log| ==> s.log[k].slot < |s.pcbs|)
    && (forall i :: 0 <= i < |s.pcbs| ==> FinishedLines(s.log, i) == if s.pcbs[i].remaining == 0 then 1 else 0)
  }

  ghost function Min(a: int, b: int): int {
    if a < b then a else b
  }

  /** An entry of the execution log is right, and slices have the length their algorithm prescribes. */
  ghost predicate SpanRight(alg: Algorithm, quantum: int, t: seq<Option<nat>>, pcbs: seq<Pcb>, x: Span) {
    match x
    case Idle(from, to) => from < to && Shows(t, from, to, None)
    case Run(c, from, to, left, finished) =>
      && c < |pcbs| && Shows(t, from, to, Some(c))
      && left == pcbs[c].process.runtime - Ran(t[..to], c)
      && (finished <==> left == 0)
      && (alg == RR ==> to - from == Min(quantum, left + (to - from)))
      && (alg == HPF ==> finished && to - from == pcbs[c].process.runtime)
  }

  ghost predicate SpansRight(w: World) {
    forall k :: 0 <= k < |w.s.spans| ==>
      SpanRight(w.s.alg, w.s.quantum, w.timeline, w.s.pcbs, w.s.spans[k])
  }

  // ---------- nothing is lost on the way in ----------

  ghost function ValidOnes(ms: seq<Pcb>): seq<Pcb> {
    if ms == [] then []
    else (if ValidMessage(ms[0]) then [ms[0]] else []) + ValidOnes(ms[1..])
  }

  /** What a PCB was when it was sent. */
  ghost function AsSent(pcbs: seq<Pcb>): (r: seq<Pcb>)
    ensures |r| == |pcbs|
  {
    seq(|pcbs|, i requires 0 <= i < |pcbs| => NewPcb(pcbs[i].pid, pcbs[i].process))
  }

  /** The valid messages are, in order, those received and those still in the message queue. */
  ghost predicate NothingLost(w: World) {
    && ValidOnes(w.sent) == AsSent(w.s.pcbs) + ValidOnes(w.inbox)
    && forall k :: 0 <= k < |w.inbox| ==> w.inbox[k] == NewPcb(w.inbox[k].pid, w.inbox[k].process)
  }

  ghost predicate Inv(w: World) {
    && SchedInv(w.s) && FrontInv(w.s)
    && Lockstep(w) && History(w) && Running(w) && NonPreemptive(w.s) && TimeAddsUp(w)
    && LogRight(w) && FinishedOnce(w.s) && SpansRight(w) && NothingLost(w)
  }
}
