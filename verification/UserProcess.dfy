/**
  A simulated process: it counts its own run time down, one unit for each clock value it sees, and
  tells the scheduler with a signal each time.
 */
module UserProcess {
  import opened Options

  datatype Signal = Usr1 | Usr2

  /** The locals of a process: the run time left, and the clock value it has already counted. */
  datatype Proc = Proc(left: int, lastClk: int)

  /** One pass through the loop of run_process at the given clock value. */
  function Poll(p: Proc, clk: int): (Proc, Option<Signal>) {
    if clk != p.lastClk
    then (Proc(p.left - 1, clk), Some(if p.left - 1 <= 0 then Usr1 else Usr2))
    else (p, None)
  }

  /** handle_sigcont: the clock value at which the process is continued does not count. */
  function Continue(p: Proc, clk: int): Proc {
    p.(lastClk := clk)
  }

  /** What happens to a process after it was forked: it reads the clock, or it is continued (handle_sigcont). */
  datatype Moment = Read(clk: int) | Cont(clk: int)

  ghost function AsSeq<T>(x: Option<T>): seq<T> {
    match x case None => [] case Some(y) => [y]
  }

  datatype Life = Life(p: Proc, sent: seq<Signal>)

  ghost function Then(sent: seq<Signal>, life: Life): Life {
    Life(life.p, sent + life.sent)
  }

  lemma ThenNothing(life: Life)
    ensures Then([], life) == life
  {
    assert [] + life.sent == life.sent;
  }

  lemma ThenThen(a: seq<Signal>, b: seq<Signal>, life: Life)
    ensures Then(a, Then(b, life)) == Then(a + b, life)
  {
    assert a + (b + life.sent) == (a + b) + life.sent;
  }

  /** The process and the signals it has sent after these moments; it is over when no run time is left. */
  ghost function Lifetime(p: Proc, ms: seq<Moment>): Life
    decreases |ms|
  {
    if ms == [] || p.left <= 0 then Life(p, [])
    else
      match ms[0]
      case Cont(clk) => Lifetime(Continue(p, clk), ms[1..])
      case Read(clk) => Then(AsSeq(Poll(p, clk).1), Lifetime(Poll(p, clk).0, ms[1..]))
  }

  /** One signal for each unit of run time counted; the signal for the last unit, and no other, is SIGUSR1. */
  lemma {:induction false} SignalsCount(p: Proc, ms: seq<Moment>)
    requires p.left >= 1
    ensures var life := Lifetime(p, ms);
            && life.p.left == p.left - |life.sent| && life.p.left >= 0
            && forall i :: 0 <= i < |life.sent| ==> life.sent[i] == if i + 1 == p.left then Usr1 else Usr2
    decreases |ms|
  {
    if ms == [] {
    } else {
      match ms[0]
      case Cont(clk) => SignalsCount(Continue(p, clk), ms[1..]);
      case Read(clk) =>
        var q := Poll(p, clk).0;
        if q.left >= 1 {
          SignalsCount(q, ms[1..]);
        }
    }
  }

  function Again(m: Moment, n: nat): (ms: seq<Moment>)
    ensures |ms| == n
  {
    seq(n, _ => m)
  }

  /** However often the process reads one value of the clock, it is as if it had read it once. */
  lemma {:induction false} ReadingAgain(p: Proc, clk: int, n: nat)
    requires p.left >= 1 && n >= 1
    ensures Lifetime(p, Again(Read(clk), n)) == Life(Poll(p, clk).0, AsSeq(Poll(p, clk).1))
    decreases n
  {
    var ms := Again(Read(clk), n);
    var q := Poll(p, clk).0;
    assert ms[1..] == Again(Read(clk), n - 1);
    if n > 1 && q.left >= 1 {
      ReadingAgain(q, clk, n - 1);
    } else {
      assert Lifetime(q, ms[1..]) == Life(q, []);
    }
    assert AsSeq(Poll(p, clk).1) + [] == AsSeq(Poll(p, clk).1);
  }

  /** Two stretches of a life, one after the other. */
  lemma {:induction false} LifetimeBoth(p: Proc, a: seq<Moment>, b: seq<Moment>)
    ensures Lifetime(p, a + b) == Then(Lifetime(p, a).sent, Lifetime(Lifetime(p, a).p, b))
    decreases |a|
  {
    if a == [] {
      assert a + b == b;
      ThenNothing(Lifetime(p, b));
    } else if p.left <= 0 {
      assert (a + b) != [];
      ThenNothing(Life(p, []));
    } else {
      assert (a + b)[0] == a[0] && (a + b)[1..] == a[1..] + b;
      match a[0]
      case Cont(clk) => LifetimeBoth(Continue(p, clk), a[1..], b);
      case Read(clk) =>
        var (q, signal) := Poll(p, clk);
        LifetimeBoth(q, a[1..], b);
        var rest := Lifetime(q, a[1..]);
        ThenThen(AsSeq(signal), rest.sent, Lifetime(rest.p, b));
    }
  }

  // ---------- how many signals, in terms of the clock values alone ----------

  /** The clock value at the last moment, be it a reading or a continuation; last_clk is 0 at first. */
  ghost function LastSeen(ms: seq<Moment>): int {
    if ms == [] then 0 else ms[|ms| - 1].clk
  }

  /** How many readings show another value than the moment before did. */
  ghost function NewValues(ms: seq<Moment>): nat
    decreases |ms|
  {
    if ms == [] then 0
    else
      var before, last := ms[..|ms| - 1], ms[|ms| - 1];
      NewValues(before) + (if last.Read? && last.clk != LastSeen(before) then 1 else 0)
  }

  ghost predicate Counted(runtime: int, ms: seq<Moment>, life: Life) {
    && |life.sent| == (if runtime <= 0 then 0 else if NewValues(ms) < runtime then NewValues(ms) else runtime)
    && life.p.left == runtime - |life.sent|
    && (forall i :: 0 <= i < |life.sent| ==> life.sent[i] == if i + 1 == runtime then Usr1 else Usr2)
    && (life.p.left > 0 ==> life.p.lastClk == LastSeen(ms))
  }

  lemma CountedNext(runtime: int, before: seq<Moment>, m: Moment, life: Life)
    requires Counted(runtime, before, life)
    ensures Counted(runtime, before + [m], Then(life.sent, Lifetime(life.p, [m])))
  {
    var ms := before + [m];
    assert ms[..|ms| - 1] == before && ms[|ms| - 1] == m;
    assert [m][1..] == [];
    assert life.sent + [] == life.sent;
  }

  /** A signal for each reading of a new value, up to the run time: SIGUSR1 for the last unit, and else SIGUSR2. */
  lemma {:induction false} SignalsAre(runtime: int, ms: seq<Moment>)
    ensures Counted(runtime, ms, Lifetime(Proc(runtime, 0), ms))
    decreases |ms|
  {
    hide Counted;
    if ms == [] {
      NothingCounted(runtime);
    } else {
      var before, m := ms[..|ms| - 1], ms[|ms| - 1];
      assert ms == before + [m];
      SignalsAre(runtime, before);
      LifetimeBoth(Proc(runtime, 0), before, [m]);
      CountedNext(runtime, before, m, Lifetime(Proc(runtime, 0), before));
    }
  }

  lemma NothingCounted(runtime: int)
    ensures Counted(runtime, [], Life(Proc(runtime, 0), []))
  {
  }

  lemma {:induction false} ReadingNothingNew(p: Proc, n: nat)
    ensures Lifetime(p, Again(Read(p.lastClk), n)) == Life(p, [])
    decreases n
  {
    var ms := Again(Read(p.lastClk), n);
    if n == 0 || p.left <= 0 {
    } else {
      assert ms[1..] == Again(Read(p.lastClk), n - 1);
      ReadingNothingNew(p, n - 1);
    }
  }

  /**
    A process continued at t sends nothing as long as it reads t, and exactly one signal when it reads
    the next value, however often it reads either.
   */
  lemma {:induction false} AfterContinue(p: Proc, t: int, n: nat, m: nat)
    requires p.left >= 1 && m >= 1
    ensures Lifetime(p, [Cont(t)] + Again(Read(t), n)) == Life(Proc(p.left, t), [])
    ensures Lifetime(p, [Cont(t)] + Again(Read(t), n) + Again(Read(t + 1), m))
         == Life(Proc(p.left - 1, t + 1), [if p.left == 1 then Usr1 else Usr2])
  {
    var a, b := [Cont(t)] + Again(Read(t), n), Again(Read(t + 1), m);
    assert a[1..] == Again(Read(t), n);
    ReadingNothingNew(Proc(p.left, t), n);
    LifetimeBoth(p, a, b);
    ReadingAgain(Proc(p.left, t), t + 1, m);
    ThenNothing(Lifetime(Proc(p.left, t), b));
  }

  lemma CountedMeans(runtime: int, ms: seq<Moment>, life: Life)
    requires Counted(runtime, ms, life)
    ensures |life.sent| == if runtime <= 0 then 0 else if NewValues(ms) < runtime then NewValues(ms) else runtime
    ensures forall i :: 0 <= i < |life.sent| ==> life.sent[i] == if i + 1 == runtime then Usr1 else Usr2
    ensures life.p.left == runtime - |life.sent| && (life.p.left > 0 ==> life.p.lastClk == LastSeen(ms))
  {
  }

  lemma NextMoment(p: Proc, ms: seq<Moment>, k: nat)
    requires p.left > 0 && k < |ms|
    ensures ms[k].Cont? ==> Lifetime(p, ms[k..]) == Lifetime(Continue(p, ms[k].clk), ms[k + 1..])
    ensures ms[k].Read? ==>
              var (q, signal) := Poll(p, ms[k].clk);
              Lifetime(p, ms[k..]) == Then(AsSeq(signal), Lifetime(q, ms[k + 1..]))
  {
    assert ms[k..][0] == ms[k] && ms[k..][1..] == ms[k + 1..];
  }

  /**
    run_process, from the moment it is first stopped: handle_sigcont resets the clock value already
    counted, and each pass of the loop compares it with the clock. The number of signals is that of the
    readings of a new value, neither last read nor continued at, as far as the run time goes.
   */
  method RunProcess(runtime: int, moments: seq<Moment>) returns (sent: seq<Signal>, p: Proc)
    ensures Life(p, sent) == Lifetime(Proc(runtime, 0), moments)
    ensures |sent| == if runtime <= 0 then 0 else if NewValues(moments) < runtime then NewValues(moments) else runtime
    ensures forall i :: 0 <= i < |sent| ==> sent[i] == if i + 1 == runtime then Usr1 else Usr2
    ensures p.left == runtime - |sent| && (p.left > 0 ==> p.lastClk == LastSeen(moments))
  {
    hide Lifetime, Counted, NewValues, LastSeen;
    var left, lastClk, k := runtime, 0, 0;
    sent := [];
    assert moments[0..] == moments;
    ThenNothing(Lifetime(Proc(runtime, 0), moments));
    while left > 0 && k < |moments|
      invariant 0 <= k <= |moments|
      invariant Lifetime(Proc(runtime, 0), moments) == Then(sent, Lifetime(Proc(left, lastClk), moments[k..]))
    {
      NextMoment(Proc(left, lastClk), moments, k);
      match moments[k] {
        case Cont(clk) => lastClk := clk;
        case Read(clk) =>
          ghost var polled := Poll(Proc(left, lastClk), clk);
          ThenThen(sent, AsSeq(polled.1), Lifetime(polled.0, moments[k + 1..]));
          if clk != lastClk {
            left := left - 1;
            lastClk := clk;
            sent := sent + [if left <= 0 then Usr1 else Usr2];
          } else {
            assert sent + [] == sent;
          }
      }
      k := k + 1;
    }
    p := Proc(left, lastClk);
    LifeOver(p, moments, k, sent);
    SignalsAre(runtime, moments);
    CountedMeans(runtime, moments, Life(p, sent));
  }

  lemma LifeOver(p: Proc, ms: seq<Moment>, k: nat, sent: seq<Signal>)
    requires k <= |ms| && (p.left <= 0 || k == |ms|)
    ensures Then(sent, Lifetime(p, ms[k..])) == Life(p, sent)
  {
    assert sent + [] == sent;
  }
}
