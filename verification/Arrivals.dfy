/**
  When create_processes takes the entries of its list: each turn compares the clock with the arrival
  time of the next entry, and only equality counts.
 */
module Arrivals {
  import opened Processes
  import opened AdmissionRuns

  /** The index after turns at which the clock shows these readings. */
  ghost function Taken(list: seq<Process>, next: nat, readings: seq<int>): (n: nat)
    requires next <= |list|
    ensures next <= n <= |list|
    decreases |readings|
  {
    if readings == [] then next
    else Taken(list, next + |ArrivalOf(Due(list, next, readings[0]))|, readings[1..])
  }

  ghost function Times(list: seq<Process>): (a: seq<int>)
    ensures |a| == |list|
  {
    seq(|list|, i requires 0 <= i < |list| => list[i].arrival)
  }

  /** The times in a occur among the readings, in this order, each at a reading of its own. */
  ghost predicate Occur(a: seq<int>, readings: seq<int>)
    decreases |readings|
  {
    a == [] || (readings != [] && ((a[0] == readings[0] && Occur(a[1..], readings[1..])) || Occur(a, readings[1..])))
  }

  ghost predicate Ascending(a: seq<int>) {
    forall i, j :: 0 <= i < j < |a| ==> a[i] <= a[j]
  }

  lemma {:induction false} FewerOccur(a: seq<int>, readings: seq<int>)
    requires a != [] && Occur(a, readings)
    ensures Occur(a[1..], readings)
    decreases |readings|
  {
    if a[0] == readings[0] && Occur(a[1..], readings[1..]) {
      MoreReadings(a[1..], readings);
    } else {
      FewerOccur(a, readings[1..]);
      MoreReadings(a[1..], readings);
    }
  }

  lemma MoreReadings(a: seq<int>, readings: seq<int>)
    requires readings != [] && Occur(a, readings[1..])
    ensures Occur(a, readings)
  {
  }

  /** Taking an entry as soon as its time shows loses nothing. */
  lemma GreedyIsBest(a: seq<int>, readings: seq<int>)
    requires a != [] && readings != [] && a[0] == readings[0]
    ensures Occur(a, readings) <==> Occur(a[1..], readings[1..])
  {
    if Occur(a, readings[1..]) {
      FewerOccur(a, readings[1..]);
    }
  }

  lemma {:induction false} TakenFrom(list: seq<Process>, next: nat, readings: seq<int>)
    requires next <= |list|
    ensures Taken(list, next, readings) == |list| <==> Occur(Times(list)[next..], readings)
    decreases |readings|
  {
    var a := Times(list)[next..];
    if readings == [] {
    } else if next < |list| && readings[0] == list[next].arrival {
      assert a[0] == readings[0] && a[1..] == Times(list)[next + 1..];
      GreedyIsBest(a, readings);
      TakenFrom(list, next + 1, readings[1..]);
    } else {
      TakenFrom(list, next, readings[1..]);
    }
  }

  /**
    Every entry is taken exactly when the arrival times occur in order among the readings of the clock, one turn
    each.
   */
  lemma AllTakenIff(list: seq<Process>, readings: seq<int>)
    ensures Taken(list, 0, readings) == |list| <==> Occur(Times(list), readings)
  {
    assert Times(list)[0..] == Times(list);
    TakenFrom(list, 0, readings);
  }

  lemma {:induction false} OccurringTimes(a: seq<int>, readings: seq<int>)
    requires Occur(a, readings)
    ensures forall i :: 0 <= i < |a| ==> a[i] in readings
    ensures Ascending(readings) ==> Ascending(a)
    decreases |readings|
  {
    if a == [] {
    } else {
      var rest := readings[1..];
      assert readings == [readings[0]] + rest;
      if a[0] == readings[0] && Occur(a[1..], rest) {
        OccurringTimes(a[1..], rest);
        assert forall i :: 1 <= i < |a| ==> a[i] == a[1..][i - 1];
      } else {
        OccurringTimes(a, rest);
      }
    }
  }

  /** A clock that never runs back never gets past an entry whose time is never shown, or entries out of order. */
  lemma StuckEntries(list: seq<Process>, readings: seq<int>, i: nat, j: nat)
    requires Ascending(readings) && i <= j < |list|
    requires list[i].arrival > list[j].arrival || list[i].arrival !in readings
    ensures Taken(list, 0, readings) < |list|
  {
    AllTakenIff(list, readings);
    assert Times(list)[i] == list[i].arrival && Times(list)[j] == list[j].arrival;
    if Occur(Times(list), readings) {
      OccurringTimes(Times(list), readings);
    }
  }

  lemma {:induction false} NobodyLeft(list: seq<Process>, readings: seq<int>)
    ensures Taken(list, |list|, readings) == |list|
    decreases |readings|
  {
    if readings == [] {
    } else {
      NobodyLeft(list, readings[1..]);
    }
  }

  /** What the clock shows in the turns. */
  ghost function Clocks(turns: seq<Turn>): (readings: seq<int>)
    ensures |readings| == |turns|
  {
    seq(|turns|, i requires 0 <= i < |turns| => turns[i].clk)
  }

  lemma NoMoreTurns(list: seq<Process>, next: nat)
    requires next <= |list|
    ensures Taken(list, next, Clocks([])) == next
  {
  }

  lemma TakenNext(list: seq<Process>, next: nat, turns: seq<Turn>, t: nat)
    requires next <= |list| && t < |turns|
    ensures var n := next + |ArrivalOf(Due(list, next, turns[t].clk))|;
            n <= |list| && Taken(list, next, Clocks(turns[t..])) == Taken(list, n, Clocks(turns[t + 1..]))
  {
    assert Clocks(turns[t..])[1..] == Clocks(turns[t + 1..]);
  }
}
