/**
  Whole runs of the process generator, on values: iterations of create_processes, each with at most
  one arrival, between which processes exit and give their memory back.
 */
module AdmissionRuns {
  import opened Options
  import opened Dyadic
  import opened BuddyLayout
  import opened BuddyOperations
  import opened Processes
  import opened AdmissionModel
  import opened BlockBooks
  import opened HashMap

  /** The arrival branch of create_processes: memory at once, or a place at the end of the list. */
  function Arrive(k: nat, s: Layout, w: seq<Process>, p: Process): (r: Admitted)
    requires Valid(k, s) && Asking(w) && p.memorySize >= 1
    ensures Valid(k, r.layout) && Asking(r.waiting)
  {
    if BestFit(s, Units(p)).Some? then Admitted(Granted(k, s, Units(p)), w, [p]) else Admitted(s, w + [p], [])
  }

  /** One iteration of the loop of create_processes. */
  function Iteration(k: nat, s: Layout, w: seq<Process>, arrival: Option<Process>): (r: Admitted)
    requires Valid(k, s) && Asking(w) && (arrival.Some? ==> arrival.value.memorySize >= 1)
    ensures Valid(k, r.layout) && Asking(r.waiting)
  {
    var r := AdmitAll(k, s, w);
    match arrival
    case None => r
    case Some(p) =>
      var q := Arrive(k, r.layout, r.waiting, p);
      Admitted(q.layout, q.waiting, r.admitted + q.admitted)
  }

  /** The entry of the list that is taken when the clock shows its arrival time. */
  ghost function Due(list: seq<Process>, next: nat, clk: int): Option<Process> {
    if next < |list| && clk == list[next].arrival then Some(list[next]) else None
  }

  ghost function ArrivalOf(arrival: Option<Process>): seq<Process> {
    match arrival case None => [] case Some(p) => [p]
  }

  lemma ArriveLeavesNobody(k: nat, s: Layout, w: seq<Process>, p: Process)
    requires Valid(k, s) && Asking(w) && p.memorySize >= 1 && NoneFits(s, w)
    ensures NoneFits(Arrive(k, s, w, p).layout, Arrive(k, s, w, p).waiting)
  {
    if CanServe(s, Units(p)) {
      StillNoneFits(k, s, Units(p), w);
    }
  }

  /** After every iteration nobody who waits fits, the newcomer included. */
  lemma NobodyFitsAfterIteration(k: nat, s: Layout, w: seq<Process>, arrival: Option<Process>)
    requires Valid(k, s) && Asking(w) && (arrival.Some? ==> arrival.value.memorySize >= 1)
    ensures NoneFits(Iteration(k, s, w, arrival).layout, Iteration(k, s, w, arrival).waiting)
  {
    NobodyFits(k, s, w);
    if arrival.Some? {
      var r := AdmitAll(k, s, w);
      ArriveLeavesNobody(k, r.layout, r.waiting, arrival.value);
    }
  }

  lemma ArriveKeeps(k: nat, s: Layout, w: seq<Process>, p: Process)
    requires Valid(k, s) && Asking(w) && p.memorySize >= 1
    ensures var r := Arrive(k, s, w, p);
            && multiset(w) + multiset{p} == multiset(r.waiting) + multiset(r.admitted)
            && |Live(r.layout)| == |Live(s)| + |r.admitted|
  {
    if CanServe(s, Units(p)) {
      AllocateKeeps(k, s, Units(p));
    }
  }

  /** An iteration forks or keeps everybody, and gives one more live chunk to everybody it forks. */
  lemma IterationKeeps(k: nat, s: Layout, w: seq<Process>, arrival: Option<Process>)
    requires Valid(k, s) && Asking(w) && (arrival.Some? ==> arrival.value.memorySize >= 1)
    ensures var r := Iteration(k, s, w, arrival);
            && multiset(w) + multiset(ArrivalOf(arrival)) == multiset(r.waiting) + multiset(r.admitted)
            && |Live(r.layout)| == |Live(s)| + |r.admitted|
  {
    WaitersKept(k, s, w);
    AdmittedHoldMemory(k, s, w);
    if arrival.Some? {
      var r := AdmitAll(k, s, w);
      ArriveKeeps(k, r.layout, r.waiting, arrival.value);
    }
  }

  /** Once memory is empty, the process that has waited longest is the next to be admitted. */
  lemma OldestIsNext(k: nat, s: Layout, w: seq<Process>)
    requires Valid(k, s) && Asking(w) && Live(s) == {} && w != [] && Units(w[0]) <= Pow2(k)
    ensures var r := AdmitAll(k, s, w); r.admitted != [] && r.admitted[0] == w[0]
  {
    EmptyMemoryServes(k, s, Units(w[0]));
    var i, t, v := AdmitStep(k, s, w);
  }

  /** Whom an iteration forks, it can serve one after the other. */
  lemma IterationInTurn(k: nat, s: Layout, w: seq<Process>, arrival: Option<Process>)
    requires Valid(k, s) && Asking(w) && (arrival.Some? ==> arrival.value.memorySize >= 1)
    ensures var r := Iteration(k, s, w, arrival); InTurn(k, s, r.admitted) && GrantAll(k, s, r.admitted) == r.layout
  {
    AdmittedInTurn(k, s, w);
    if arrival.Some? {
      var r := AdmitAll(k, s, w);
      if CanServe(r.layout, Units(arrival.value)) {
        TurnPlus(k, s, r.admitted, arrival.value);
      } else {
        assert r.admitted + [] == r.admitted;
      }
    }
  }

  // ---------- those who wait come before the newcomer ----------

  /** What one walk along the list does, the newcomer being its last entry. */
  lemma {:induction false} WalkPlus(k: nat, s: Layout, w: seq<Process>, p: Process)
    requires Valid(k, s) && Asking(w) && p.memorySize >= 1
    ensures var r := OneWalk(k, s, w);
            && Asking(r.waiting)
            && var q := Arrive(k, r.layout, r.waiting, p);
            OneWalk(k, s, w + [p]) == Admitted(q.layout, q.waiting, r.admitted + q.admitted)
    decreases |w|
  {
    hide Granted, CanServe, BuddyLayout.Valid;
    var r := OneWalk(k, s, w);
    AdmissionIsOneWalk(k, s, w);
    var q := Arrive(k, r.layout, r.waiting, p);
    if w == [] {
      LastWalk(k, s, p);
    } else {
      assert (w + [p])[1..] == w[1..] + [p];
      var t := if CanServe(s, Units(w[0])) then Granted(k, s, Units(w[0])) else s;
      WalkPlus(k, t, w[1..], p);
      WaitersLead(k, OneWalk(k, t, w[1..]), w[0], p);
    }
  }

  lemma LastWalk(k: nat, s: Layout, p: Process)
    requires Valid(k, s) && p.memorySize >= 1
    ensures var q := Arrive(k, s, [], p); OneWalk(k, s, [p]) == Admitted(q.layout, q.waiting, [] + q.admitted)
  {
    assert [p][1..] == [];
    assert [] + [p] == [p];
  }

  lemma WaitersLead(k: nat, r: Admitted, first: Process, p: Process)
    requires Valid(k, r.layout) && Asking(r.waiting) && first.memorySize >= 1 && p.memorySize >= 1
    ensures var q := Arrive(k, r.layout, r.waiting, p);
            && [first] + (r.admitted + q.admitted) == ([first] + r.admitted) + q.admitted
            && var v := Arrive(k, r.layout, [first] + r.waiting, p);
            v.layout == q.layout && v.admitted == q.admitted && v.waiting == [first] + q.waiting
  {
    assert [first] + (r.waiting + [p]) == ([first] + r.waiting) + [p];
  }

  /** An iteration is one walk along the waiting list with the newcomer, if there is one, at its end. */
  lemma IterationIsOneWalk(k: nat, s: Layout, w: seq<Process>, arrival: Option<Process>)
    requires Valid(k, s) && Asking(w) && (arrival.Some? ==> arrival.value.memorySize >= 1)
    ensures Iteration(k, s, w, arrival) == OneWalk(k, s, w + ArrivalOf(arrival))
  {
    AdmissionIsOneWalk(k, s, w);
    match arrival
    case None => assert w + [] == w;
    case Some(p) => WalkPlus(k, s, w, p);
  }

  /** Who of the waiting is admitted, and in which order, does not depend on the newcomer, who is forked last. */
  lemma WaitersComeFirst(k: nat, s: Layout, w: seq<Process>, p: Process)
    requires Valid(k, s) && Asking(w) && p.memorySize >= 1
    ensures var r, v := Iteration(k, s, w, None), Iteration(k, s, w, Some(p));
            if CanServe(r.layout, Units(p))
            then v.admitted == r.admitted + [p] && v.waiting == r.waiting
            else v.admitted == r.admitted && v.waiting == r.waiting + [p]
  {
    var r := AdmitAll(k, s, w);
    assert r.admitted + [] == r.admitted;
  }

  // ---------- runs ----------

  /** Iterate carries the pids that fork would return next; Exit names the process that exits. */
  datatype Event = Iterate(arrival: Option<Process>, pids: seq<int>) | Exit(pid: int)

  datatype State = State(
    layout: Layout,
    waiting: seq<Process>,
    books: Books,
    running: map<int, Process>,  // the processes forked that have not exited, by pid
    forked: seq<Process>,        // history: all processes forked
    named: seq<int>)             // history: the pids that fork returned for them

  ghost predicate Good(k: nat, g: State) {
    Valid(k, g.layout) && Asking(g.waiting) && Kept(g.layout, g.books, g.running)
  }

  /**
    Requests are for at least one unit. fork returns no pid of a running process. Of those who exit,
    the map knows the owners of blocks, and nobody else.
   */
  ghost predicate Possible(k: nat, g: State, e: Event)
    requires Good(k, g)
  {
    match e
    case Iterate(arrival, pids) =>
      && (arrival.Some? ==> arrival.value.memorySize >= 1)
      && |pids| >= |Iteration(k, g.layout, g.waiting, arrival).admitted| && FreshPids(pids, g.running.Keys)
    case Exit(pid) => pid in g.running && (pid in g.books.owners || Some(pid) !in g.books.keys)
  }

  /** An iteration: everybody it admits is forked and given the block, and the map is told. */
  ghost function Forked(k: nat, g: State, arrival: Option<Process>, pids: seq<int>): (h: State)
    requires Good(k, g) && Possible(k, g, Iterate(arrival, pids))
    ensures Good(k, h)
  {
    var r := Iteration(k, g.layout, g.waiting, arrival);
    IterationInTurn(k, g.layout, g.waiting, arrival);
    AssignAllKeeps(k, g.layout, g.books, g.running, r.admitted, pids);
    State(r.layout, r.waiting, AssignAll(k, g.layout, g.books, r.admitted, pids),
          StartAll(g.running, r.admitted, pids), g.forked + r.admitted, g.named + pids[..|r.admitted|])
  }

  /** An exit: the block that the map has for the pid is freed; a pid that it does not know frees nothing. */
  ghost function Exited(k: nat, g: State, pid: int): (h: State)
    requires Good(k, g) && Possible(k, g, Exit(pid))
    ensures Good(k, h)
  {
    if pid in g.books.owners then
      var i := OwnedAt(k, g, pid);
      ExitKeeps(k, g, pid, i);
      g.(layout := Release(g.layout, i), books := Strike(g.books, {g.books.owners[pid]}), running := g.running - {pid})
    else
      UnknownExitKeeps(k, g, pid);
      g.(running := g.running - {pid})
  }

  /** Where the block of an owner stands. */
  ghost function OwnedAt(k: nat, g: State, pid: int): (i: nat)
    requires Good(k, g) && pid in g.books.owners
    ensures i < |g.layout| && g.layout[i] == g.books.owners[pid] && !g.layout[i].Free()
  {
    var c := g.books.owners[pid];
    assert c in Held(g.books.owners);
    assert c in Live(g.layout);
    var i :| 0 <= i < |g.layout| && g.layout[i] == c;
    i
  }

  lemma ExitKeeps(k: nat, g: State, pid: int, i: nat)
    requires Good(k, g) && pid in g.books.owners && pid in g.running
    requires i < |g.layout| && g.layout[i] == g.books.owners[pid] && !g.layout[i].Free()
    ensures Valid(k, Release(g.layout, i))
    ensures Kept(Release(g.layout, i), Strike(g.books, {g.books.owners[pid]}), g.running - {pid})
  {
    ReleaseKeeps(k, g.layout, i);
    StrikeBalances(g.layout, Release(g.layout, i), g.books, {g.books.owners[pid]});
    StrikeOwn(g.layout, g.books, pid);
  }

  lemma UnknownExitKeeps(k: nat, g: State, pid: int)
    requires Good(k, g) && pid in g.running && pid !in g.books.owners
    ensures Kept(g.layout, g.books, g.running - {pid})
  {
  }

  ghost function Step(k: nat, g: State, e: Event): (h: State)
    requires Good(k, g) && Possible(k, g, e)
    ensures Good(k, h)
  {
    match e
    case Iterate(arrival, pids) => Forked(k, g, arrival, pids)
    case Exit(pid) => Exited(k, g, pid)
  }

  ghost function Start(k: nat): (g: State)
    ensures Good(k, g)
  {
    InitialValid(k);
    State(Initial(k), [], Books(NoKeys(100), map[], {}), map[], [], [])
  }

  ghost predicate LegalRun(k: nat, run: seq<Event>)
    decreases |run|, 0
  {
    run == [] || (LegalRun(k, run[..|run| - 1]) && Possible(k, After(k, run[..|run| - 1]), run[|run| - 1]))
  }

  ghost function After(k: nat, run: seq<Event>): (g: State)
    requires LegalRun(k, run)
    ensures Good(k, g)
    decreases |run|, 1
  {
    if run == [] then Start(k) else Step(k, After(k, run[..|run| - 1]), run[|run| - 1])
  }

  // ---------- several exits at once ----------

  /** The blocks of those among the exited who own one. */
  ghost function OwnedBy(b: Books, exited: seq<int>): set<Chunk> {
    set p | p in exited && p in b.owners :: b.owners[p]
  }

  ghost predicate MayExit(g: State, exited: seq<int>) {
    && (forall i, j :: 0 <= i < j < |exited| ==> exited[i] != exited[j])
    && forall i :: 0 <= i < |exited| ==>
         exited[i] in g.running && (exited[i] in g.books.owners || Some(exited[i]) !in g.books.keys)
  }

  lemma {:induction false} ExitFirst(k: nat, g: State, exited: seq<int>)
    requires Good(k, g) && MayExit(g, exited) && exited != []
    ensures Possible(k, g, Exit(exited[0]))
    ensures var h := Exited(k, g, exited[0]);
            && MayExit(h, exited[1..])
            && Live(h.layout) == Live(g.layout) - OwnedBy(g.books, [exited[0]])
            && h.books == Strike(g.books, OwnedBy(g.books, [exited[0]]))
            && OwnedBy(g.books, exited) == OwnedBy(g.books, [exited[0]]) + OwnedBy(h.books, exited[1..])
  {
    var p := exited[0];
    if p in g.books.owners {
      var i := OwnedAt(k, g, p);
      ReleaseKeeps(k, g.layout, i);
      StrikeOwn(g.layout, g.books, p);
      assert OwnedBy(g.books, [p]) == {g.books.owners[p]};
    } else {
      assert OwnedBy(g.books, [p]) == {};
      assert Strike(g.books, {}).owners == g.books.owners;
    }
    OwnedSplit(g.books, exited, Exited(k, g, p).books);
  }

  lemma OwnedSplit(b: Books, exited: seq<int>, c: Books)
    requires exited != [] && exited[0] !in exited[1..]
    requires forall p :: p in exited[1..] ==> (p in b.owners <==> p in c.owners)
    requires forall p :: p in exited[1..] && p in b.owners ==> b.owners[p] == c.owners[p]
    ensures OwnedBy(b, exited) == OwnedBy(b, [exited[0]]) + OwnedBy(c, exited[1..])
  {
    forall x
      ensures x in OwnedBy(b, exited) <==> x in OwnedBy(b, [exited[0]]) + OwnedBy(c, exited[1..])
    {
      if x in OwnedBy(b, exited) {
        var p :| p in exited && p in b.owners && b.owners[p] == x;
        assert p == exited[0] || p in exited[1..];
      }
      if x in OwnedBy(c, exited[1..]) {
        var p :| p in exited[1..] && p in c.owners && c.owners[p] == x;
        assert p in exited && b.owners[p] == x;
      }
      if x in OwnedBy(b, [exited[0]]) {
        assert exited[0] in exited;
      }
    }
  }

  /** Exits in a row. */
  ghost function ExitedAll(k: nat, g: State, exited: seq<int>): (h: State)
    requires Good(k, g) && MayExit(g, exited)
    ensures Good(k, h)
    decreases |exited|
  {
    if exited == [] then g
    else
      ExitFirst(k, g, exited);
      ExitedAll(k, Exited(k, g, exited[0]), exited[1..])
  }

  lemma StrikeTwice(b: Books, c: set<Chunk>, d: set<Chunk>)
    ensures Strike(Strike(b, c), d) == Strike(b, c + d)
  {
    assert Strike(Strike(b, c), d).owners == Strike(b, c + d).owners;
  }

  /** However they are freed: exits leave the block list and the books that the blocks freed determine. */
  lemma {:induction false} ExitsDetermined(k: nat, g: State, exited: seq<int>)
    requires Good(k, g) && MayExit(g, exited)
    ensures var h := ExitedAll(k, g, exited);
            && Live(h.layout) == Live(g.layout) - OwnedBy(g.books, exited)
            && h.books == Strike(g.books, OwnedBy(g.books, exited)) && h.waiting == g.waiting
            && forall t :: Valid(k, t) && Live(t) == Live(g.layout) - OwnedBy(g.books, exited) ==> t == h.layout
    decreases |exited|
  {
    if exited == [] {
      assert OwnedBy(g.books, []) == {};
      assert Strike(g.books, {}).owners == g.books.owners;
    } else {
      ExitFirst(k, g, exited);
      var m := Exited(k, g, exited[0]);
      ExitsDetermined(k, m, exited[1..]);
      StrikeTwice(g.books, OwnedBy(g.books, [exited[0]]), OwnedBy(m.books, exited[1..]));
    }
    var h := ExitedAll(k, g, exited);
    forall t | Valid(k, t) && Live(t) == Live(h.layout)
      ensures t == h.layout
    {
      LayoutDeterminedByLive(k, t);
      LayoutDeterminedByLive(k, h.layout);
    }
  }

  lemma {:induction false} ExitsForkNobody(k: nat, g: State, exited: seq<int>)
    requires Good(k, g) && MayExit(g, exited)
    ensures ExitedAll(k, g, exited).forked == g.forked && ExitedAll(k, g, exited).named == g.named
    decreases |exited|
  {
    if exited == [] {
    } else {
      ExitFirst(k, g, exited);
      ExitsForkNobody(k, Exited(k, g, exited[0]), exited[1..]);
    }
  }

  // ---------- turns of the generator's loop ----------

  /** The state of the loop of create_processes: the index into the list of processes besides the rest. */
  datatype Turning = Turning(state: State, next: nat)

  /** What happens before and during one turn: who exits, what the clock shows, which pids fork would return. */
  datatype Turn = Turn(exited: seq<int>, clk: int, pids: seq<int>)

  /** No process is reported as exited that could not have exited; the pids are fresh, and enough. */
  ghost predicate TurnPossible(k: nat, x: Turning, e: Turn)
    requires Good(k, x.state)
  {
    && MayExit(x.state, e.exited)
    && FreshPids(e.pids, ExitedAll(k, x.state, e.exited).running.Keys)
    && |e.pids| > |x.state.waiting|
  }

  lemma {:induction false} EnoughPids(k: nat, x: Turning, e: Turn, arrival: Option<Process>)
    requires Good(k, x.state) && TurnPossible(k, x, e) && (arrival.Some? ==> arrival.value.memorySize >= 1)
    ensures Possible(k, ExitedAll(k, x.state, e.exited), Iterate(arrival, e.pids))
  {
    ExitsDetermined(k, x.state, e.exited);
    var g := ExitedAll(k, x.state, e.exited);
    IterationKeeps(k, g.layout, g.waiting, arrival);
    var r := Iteration(k, g.layout, g.waiting, arrival);
    assert |multiset(g.waiting) + multiset(ArrivalOf(arrival))| == |multiset(r.waiting) + multiset(r.admitted)|;
    assert |multiset(g.waiting)| == |g.waiting| && |multiset(r.admitted)| == |r.admitted|;
  }

  ghost function TurnOnce(k: nat, x: Turning, list: seq<Process>, e: Turn): (y: Turning)
    requires Good(k, x.state) && TurnPossible(k, x, e) && Asking(list)
    ensures Good(k, y.state)
  {
    var arrival := Due(list, x.next, e.clk);
    EnoughPids(k, x, e, arrival);
    Turning(Forked(k, ExitedAll(k, x.state, e.exited), arrival, e.pids), x.next + |ArrivalOf(arrival)|)
  }

  // ---------- everybody is accounted for ----------

  /** Those who have arrived, in order. */
  ghost function Arrived(run: seq<Event>): seq<Process> {
    if run == [] then []
    else
      var last := run[|run| - 1];
      Arrived(run[..|run| - 1]) + if last.Iterate? then ArrivalOf(last.arrival) else []
  }

  ghost function Exits(run: seq<Event>): nat {
    if run == [] then 0 else Exits(run[..|run| - 1]) + (if run[|run| - 1].Exit? then 1 else 0)
  }

  lemma Regroup(f: multiset<Process>, w: multiset<Process>, n: multiset<Process>,
                t: multiset<Process>, d: multiset<Process>)
    requires w + n == t + d
    ensures f + w + n == f + d + t
  {
    assert f + w + n == f + (w + n);
    assert f + (t + d) == f + d + t;
  }

  lemma Counted(forked: seq<Process>, w: seq<Process>, arrived: seq<Process>,
                admitted: seq<Process>, waiting: seq<Process>, newcomers: seq<Process>)
    requires multiset(arrived) == multiset(forked) + multiset(w)
    requires multiset(w) + multiset(newcomers) == multiset(waiting) + multiset(admitted)
    ensures multiset(arrived + newcomers) == multiset(forked + admitted) + multiset(waiting)
  {
    assert multiset(arrived + newcomers) == multiset(arrived) + multiset(newcomers);
    assert multiset(forked + admitted) == multiset(forked) + multiset(admitted);
    Regroup(multiset(forked), multiset(w), multiset(newcomers), multiset(waiting), multiset(admitted));
  }

  lemma {:induction false} StartedCount(running: map<int, Process>, ps: seq<Process>, pids: seq<int>)
    requires |pids| >= |ps| && FreshPids(pids, running.Keys)
    ensures |StartAll(running, ps, pids)| == |running| + |ps|
    decreases |ps|
  {
    if ps == [] {
    } else {
      var m := running[pids[0] := ps[0]];
      FreshTail(pids, running.Keys);
      assert m.Keys == running.Keys + {pids[0]};
      assert |m.Keys| == |running.Keys| + 1;
      StartedCount(m, ps[1..], pids[1..]);
    }
  }

  ghost predicate Accounted(g: State, arrived: seq<Process>, exits: nat) {
    && multiset(arrived) == multiset(g.forked) + multiset(g.waiting)
    && |g.running| + exits == |g.forked|
  }

  lemma IterateAccounted(k: nat, g: State, arrival: Option<Process>, pids: seq<int>, arrived: seq<Process>, exits: nat)
    requires Good(k, g) && Possible(k, g, Iterate(arrival, pids)) && Accounted(g, arrived, exits)
    ensures Accounted(Step(k, g, Iterate(arrival, pids)), arrived + ArrivalOf(arrival), exits)
  {
    hide Iteration, BuddyLayout.Valid, Live, Asking, AdmitAll, ArrivalOf, Kept, FreshPids;
    IterationKeeps(k, g.layout, g.waiting, arrival);
    var r := Iteration(k, g.layout, g.waiting, arrival);
    Counted(g.forked, g.waiting, arrived, r.admitted, r.waiting, ArrivalOf(arrival));
    StartedCount(g.running, r.admitted, pids);
  }

  lemma ExitAccounted(k: nat, g: State, pid: int, arrived: seq<Process>, exits: nat)
    requires Good(k, g) && Possible(k, g, Exit(pid)) && Accounted(g, arrived, exits)
    ensures Accounted(Step(k, g, Exit(pid)), arrived, exits + 1)
  {
    assert (g.running - {pid}).Keys == g.running.Keys - {pid};
    assert |g.running.Keys - {pid}| == |g.running.Keys| - 1;
  }

  /** In every run: whoever has arrived was forked or waits, and whoever was forked runs or has exited. */
  lemma {:induction false} EverybodyAccounted(k: nat, run: seq<Event>)
    requires LegalRun(k, run)
    ensures Accounted(After(k, run), Arrived(run), Exits(run))
    decreases |run|
  {
    if run == [] {
    } else {
      var before, last := run[..|run| - 1], run[|run| - 1];
      EverybodyAccounted(k, before);
      match last
      case Iterate(arrival, pids) => IterateAccounted(k, After(k, before), arrival, pids, Arrived(before),
              Exits(before));
      case Exit(pid) =>
        ExitAccounted(k, After(k, before), pid, Arrived(before), Exits(before));
        assert Arrived(run) == Arrived(before);
    }
  }

  /**
    In every run live blocks and owners correspond, but for the leaked blocks: each live block is
    leaked or has one owner; each owner runs and its block suits it; and if nothing has leaked, everybody
    who runs is an owner.
   */
  lemma OwnersAndBlocks(k: nat, run: seq<Event>)
    requires LegalRun(k, run)
    ensures var g := After(k, run);
            && Live(g.layout) == Held(g.books.owners) + g.books.leaked
            && Held(g.books.owners) !! g.books.leaked
            && (forall p, q :: p in g.books.owners && q in g.books.owners && p != q ==>
                  g.books.owners[p] != g.books.owners[q])
            && (forall p :: p in g.books.owners ==> p in g.running && Suits(g.books.owners[p], g.running[p]))
            && (g.books.leaked == {} ==> g.books.owners.Keys == g.running.Keys)
  {
    hide Kept, Held, Suits, BuddyLayout.Valid, Live, Asking, LegalRun;
    var g := After(k, run);
    KeptMeans(g.layout, g.books, g.running);
  }

  lemma KeptMeans(s: Layout, b: Books, running: map<int, Process>)
    requires Kept(s, b, running)
    ensures Live(s) == Held(b.owners) + b.leaked && Held(b.owners) !! b.leaked
    ensures forall p, q :: p in b.owners && q in b.owners && p != q ==> b.owners[p] != b.owners[q]
    ensures forall p :: p in b.owners ==> p in running && Suits(b.owners[p], running[p])
    ensures b.leaked == {} ==> b.owners.Keys == running.Keys
  {
    if b.leaked == {} {
      assert forall p :: p in b.owners.Keys ==> p in running.Keys;
      assert forall p :: p in running.Keys ==> p in b.owners.Keys;
      assert b.owners.Keys == running.Keys;
    }
  }

  // ---------- which pid is whose ----------

  /** Number j is the last process that was forked with pid p. */
  ghost predicate LastFork(g: State, j: nat, p: int) {
    j < |g.named| && g.named[j] == p && forall i :: j < i < |g.named| ==> g.named[i] != p
  }

  /** Whoever runs under a pid is the last process for which fork returned it. */
  ghost predicate Registered(g: State) {
    && |g.named| == |g.forked|
    && forall p :: p in g.running ==> exists j: nat :: LastFork(g, j, p) && g.running[p] == g.forked[j]
  }

  lemma {:induction false} StartedRun(running: map<int, Process>, ps: seq<Process>, pids: seq<int>, p: int)
    requires |pids| >= |ps| && p in StartAll(running, ps, pids)
    ensures p in running || p in pids[..|ps|]
    ensures p !in pids[..|ps|] ==> p in running && StartAll(running, ps, pids)[p] == running[p]
    decreases |ps|
  {
    if ps == [] {
    } else {
      assert pids[..|ps|] == [pids[0]] + pids[1..][..|ps| - 1];
      StartedRun(running[pids[0] := ps[0]], ps[1..], pids[1..], p);
    }
  }

  lemma {:induction false} StartedAs(running: map<int, Process>, ps: seq<Process>, pids: seq<int>, j: nat)
    requires |pids| >= |ps| && FreshPids(pids, running.Keys) && j < |ps|
    ensures pids[j] in StartAll(running, ps, pids) && StartAll(running, ps, pids)[pids[j]] == ps[j]
    decreases |ps|
  {
    var m := running[pids[0] := ps[0]];
    FreshTail(pids, running.Keys);
    assert m.Keys == running.Keys + {pids[0]};
    if j == 0 {
      StartedKeeps(m, ps[1..], pids[1..], pids[0]);
    } else {
      StartedAs(m, ps[1..], pids[1..], j - 1);
    }
  }

  lemma {:induction false} StartedKeeps(running: map<int, Process>, ps: seq<Process>, pids: seq<int>, p: int)
    requires |pids| >= |ps| && p in running && p !in pids
    ensures p in StartAll(running, ps, pids) && StartAll(running, ps, pids)[p] == running[p]
    decreases |ps|
  {
    if ps == [] {
    } else {
      StartedKeeps(running[pids[0] := ps[0]], ps[1..], pids[1..], p);
    }
  }

  lemma IterateRegisters(k: nat, g: State, arrival: Option<Process>, pids: seq<int>)
    requires Good(k, g) && Possible(k, g, Iterate(arrival, pids)) && Registered(g)
    ensures Registered(Forked(k, g, arrival, pids))
  {
    hide Kept, Iteration, AssignAll, BuddyLayout.Valid;
    var r, h := Iteration(k, g.layout, g.waiting, arrival), Forked(k, g, arrival, pids);
    var n := |g.named|;
    forall p | p in h.running
      ensures exists j: nat :: LastFork(h, j, p) && h.running[p] == h.forked[j]
    {
      StartedRun(g.running, r.admitted, pids, p);
      if p in pids[..|r.admitted|] {
        var i :| 0 <= i < |r.admitted| && pids[i] == p;
        StartedAs(g.running, r.admitted, pids, i);
        assert LastFork(h, n + i, p);
      } else {
        var j: nat :| LastFork(g, j, p) && g.running[p] == g.forked[j];
        forall i | j < i < |h.named|
          ensures h.named[i] != p
        {
          assert i >= n ==> h.named[i] in pids[..|r.admitted|];
        }
        assert LastFork(h, j, p);
      }
    }
  }

  lemma ExitRegisters(k: nat, g: State, pid: int)
    requires Good(k, g) && Possible(k, g, Exit(pid)) && Registered(g)
    ensures Registered(Exited(k, g, pid))
  {
    var h := Exited(k, g, pid);
    forall p | p in h.running
      ensures exists j: nat :: LastFork(h, j, p) && h.running[p] == h.forked[j]
    {
      var j: nat :| LastFork(g, j, p) && g.running[p] == g.forked[j];
      assert LastFork(h, j, p);
    }
  }

  /** In every run the process that runs under a pid, and owns the block of that pid, is the last forked with it. */
  lemma {:induction false} PidsAreTheirs(k: nat, run: seq<Event>)
    requires LegalRun(k, run)
    ensures var g := After(k, run);
            && |g.named| == |g.forked|
            && (forall p :: p in g.books.owners ==> p in g.running)
            && (forall p :: p in g.running ==> exists j: nat :: LastFork(g, j, p) && g.running[p] == g.forked[j])
    decreases |run|
  {
    hide Kept, Iteration, BuddyLayout.Valid, Possible;
    if run == [] {
    } else {
      var before := run[..|run| - 1];
      PidsAreTheirs(k, before);
      match run[|run| - 1]
      case Iterate(arrival, pids) => IterateRegisters(k, After(k, before), arrival, pids);
      case Exit(pid) => ExitRegisters(k, After(k, before), pid);
    }
    OwnersAndBlocks(k, run);
  }

  /** Memory is whole again exactly when everybody forked has exited and nothing has leaked. */
  lemma WholeIff(k: nat, run: seq<Event>)
    requires LegalRun(k, run)
    ensures var g := After(k, run);
            g.layout == Initial(k) <==> Exits(run) == |g.forked| && g.books.leaked == {}
  {
    var g := After(k, run);
    EverybodyAccounted(k, run);
    OwnersAndBlocks(k, run);
    InitialLayout(k, g.layout);
    if Exits(run) == |g.forked| {
      assert g.running.Keys == {};
    }
    forall p | p in g.books.owners
      ensures g.books.owners[p] in Live(g.layout)
    {
      assert g.books.owners[p] in Held(g.books.owners);
    }
    if g.layout == Initial(k) {
      assert g.books.owners.Keys == {};
      assert g.running.Keys == {};
      assert |g.running| == 0;
    }
  }

  lemma InitialLayout(k: nat, s: Layout)
    requires Valid(k, s)
    ensures s == Initial(k) <==> Live(s) == {}
  {
    InitialValid(k);
    LayoutDeterminedByLive(k, s);
    LayoutDeterminedByLive(k, Initial(k));
    assert Live(Initial(k)) == {};
  }

  // ---------- turns are runs ----------

  lemma Extend(k: nat, run: seq<Event>, e: Event)
    requires LegalRun(k, run) && Possible(k, After(k, run), e)
    ensures LegalRun(k, run + [e]) && After(k, run + [e]) == Step(k, After(k, run), e)
  {
    assert (run + [e])[..|run|] == run;
  }

  lemma {:induction false} ExitsAreRun(k: nat, run: seq<Event>, exited: seq<int>) returns (longer: seq<Event>)
    requires LegalRun(k, run) && MayExit(After(k, run), exited)
    ensures LegalRun(k, longer) && After(k, longer) == ExitedAll(k, After(k, run), exited)
    ensures Arrived(longer) == Arrived(run)
    decreases |exited|
  {
    longer := run;
    if exited == [] {
    } else {
      ExitFirst(k, After(k, run), exited);
      Extend(k, run, Exit(exited[0]));
      var next := run + [Exit(exited[0])];
      assert next[..|next| - 1] == run;
      longer := ExitsAreRun(k, next, exited[1..]);
    }
  }

  /** A turn continues the run, and its arrival is the next entry of the list. */
  lemma {:induction false} TurnIsRun(k: nat, run: seq<Event>, x: Turning, list: seq<Process>, e: Turn)
    returns (longer: seq<Event>)
    requires LegalRun(k, run) && After(k, run) == x.state && TurnPossible(k, x, e) && Asking(list)
    requires x.next <= |list| && Arrived(run) == list[..x.next]
    ensures LegalRun(k, longer) && After(k, longer) == TurnOnce(k, x, list, e).state
    ensures TurnOnce(k, x, list, e).next <= |list| && Arrived(longer) == list[..TurnOnce(k, x, list, e).next]
  {
    hide Good, Kept, Forked, Exited, Iteration, FreshPids, MayExit, BuddyLayout.Valid, Arrived;
    var exits := ExitsAreRun(k, run, e.exited);
    var arrival := Due(list, x.next, e.clk);
    EnoughPids(k, x, e, arrival);
    Extend(k, exits, Iterate(arrival, e.pids));
    longer := exits + [Iterate(arrival, e.pids)];
    ArrivedPlus(exits, arrival, e.pids);
    DueNext(list, x.next, e.clk);
  }

  lemma ArrivedPlus(run: seq<Event>, arrival: Option<Process>, pids: seq<int>)
    ensures Arrived(run + [Iterate(arrival, pids)]) == Arrived(run) + ArrivalOf(arrival)
  {
    var longer := run + [Iterate(arrival, pids)];
    assert longer[..|longer| - 1] == run;
  }

  lemma DueNext(list: seq<Process>, next: nat, clk: int)
    requires next <= |list|
    ensures var n := next + |ArrivalOf(Due(list, next, clk))|;
            n <= |list| && list[..next] + ArrivalOf(Due(list, next, clk)) == list[..n]
  {
  }
}
