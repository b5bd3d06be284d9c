/**
  The open-addressing hash map with quadratic probing, used without removals.
 */
module HashMap {
  import opened Dyadic
  import opened Options

  datatype Node<+V> = Node(key: int, value: V)

  const TWO_TO_64 := 0x1_0000_0000_0000_0000

  /** Multiplication in unsigned long wraps around at 2^64, as does the conversion of a negative key. */
  function IntHash(key: int): nat {
    ((key % TWO_TO_64) * 2654435761) % TWO_TO_64 / 65536
  }

  /** The bucket inspected after t steps. */
  function Probe(capacity: nat, key: int, t: nat): (index: nat)
    requires capacity > 0
    ensures index < capacity
  {
    (IntHash(key) % capacity + t * t) % capacity
  }

  /** The product key * 2654435761 is q times 2^64 and r. */
  ghost predicate Wraps(key: int, q: int, r: int) {
    key * 2654435761 == q * TWO_TO_64 + r && 0 <= r < TWO_TO_64
  }

  /** Quotient and remainder are unique. */
  lemma DivideIs(a: int, m: int, q: int, r: int)
    requires 0 < m && a == q * m + r && 0 <= r < m
    ensures a / m == q && a % m == r
  {
    var d := a / m - q;
    assert a == (a / m) * m + a % m;
    assert d * m == r - a % m by {
      assert d * m == (a / m) * m - q * m;
    }
    assert d >= 1 ==> d * m >= m;
    assert d <= -1 ==> d * m <= -m;
  }

  lemma HashFrom(key: int, q: int, r: int, h: int)
    requires Wraps(key, q, r) && 65536 * h <= r < 65536 * (h + 1)
    ensures IntHash(key) == h
  {
    var a, k := key / TWO_TO_64, key % TWO_TO_64;
    assert key == a * TWO_TO_64 + k;
    assert k * 2654435761 == (q - a * 2654435761) * TWO_TO_64 + r;
    DivideIs(k * 2654435761, TWO_TO_64, q - a * 2654435761, r);
    DivideIs(r, 65536, h, r - 65536 * h);
  }

  /** The hash of any key, negative or not, is the product modulo 2^64 without its lowest 16 bits. */
  lemma HashIs(key: int, h: int)
    ensures h == IntHash(key) <==> exists q: int, r: int :: Wraps(key, q, r) && 65536 * h <= r < 65536 * (h + 1)
  {
    hide IntHash;
    var x := key * 2654435761;
    var q, r := x / TWO_TO_64, x % TWO_TO_64;
    assert Wraps(key, q, r);
    HashFrom(key, q, r, r / 65536);
    if h == IntHash(key) {
      assert 65536 * h <= r < 65536 * (h + 1);
    } else {
      forall p: int, s: int | Wraps(key, p, s) && 65536 * h <= s < 65536 * (h + 1)
        ensures false
      {
        HashFrom(key, p, s, h);
      }
    }
  }

  /** After t steps the place is t * t buckets further than the hash, counted round the table. */
  lemma ProbeIs(capacity: nat, key: int, t: nat) returns (n: nat)
    requires capacity > 0
    ensures IntHash(key) + t * t == n * capacity + Probe(capacity, key, t)
  {
    hide IntHash;
    var h := IntHash(key);
    var r := h % capacity + t * t;
    n := h / capacity + r / capacity;
    assert h == (h / capacity) * capacity + h % capacity && r == (r / capacity) * capacity + r % capacity;
    assert n * capacity == (h / capacity) * capacity + (r / capacity) * capacity;
  }

  // ---------- the length of a probe sequence ----------

  /** The least t >= from at which t * t is a multiple of n. */
  function PeriodFrom(n: nat, from: nat): (t: nat)
    requires 1 <= from <= n
    ensures from <= t <= n && (t * t) % n == 0
    ensures forall u {:trigger u * u} :: from <= u < t ==> (u * u) % n != 0
    decreases n - from
  {
    if (from * from) % n == 0 then from
    else
      MultipleMod(n, n);
      PeriodFrom(n, from + 1)
  }

  /** After this many steps a probe sequence is back at its first bucket; never later than n steps. */
  function Period(n: nat): (t: nat)
    requires n >= 1
    ensures 1 <= t <= n
  {
    PeriodFrom(n, 1)
  }

  lemma BackHome(capacity: nat, key: int, t: nat)
    requires capacity > 0
    ensures Probe(capacity, key, t) == Probe(capacity, key, 0) <==> (t * t) % capacity == 0
  {
    var h := IntHash(key) % capacity;
    Remainder(0, h, capacity);
    if (t * t) % capacity == 0 {
      var q := Divides(t * t, capacity);
      Remainder(q, h, capacity);
    }
    if (h + t * t) % capacity == h {
      var q := (h + t * t) / capacity;
      assert t * t == q * capacity;
      MultipleMod(q, capacity);
    }
  }

  /** A probe sequence first returns to its first bucket after exactly Period steps. */
  lemma FirstReturn(capacity: nat, key: int, t: nat)
    requires capacity > 0 && 1 <= t <= Period(capacity)
    ensures Probe(capacity, key, t) == Probe(capacity, key, 0) <==> t == Period(capacity)
  {
    BackHome(capacity, key, t);
    assert t < Period(capacity) ==> (t * t) % capacity != 0;
  }

  /** The table of the memory manager has 100 buckets, but a key is only ever looked for in ten places. */
  lemma PeriodOfHundred()
    ensures Period(100) == 10
  {
    assert PeriodFrom(100, 10) == 10;
    assert PeriodFrom(100, 7) == 10;
    assert PeriodFrom(100, 4) == 10;
  }

  // ---------- the keys in the buckets, as a value ----------

  type Keys = seq<Option<int>>

  /** After how many steps from t on probing for key meets the key itself or an empty bucket. */
  function Slot(b: Keys, key: int, t: nat): (r: Option<nat>)
    requires |b| > 0 && t <= Period(|b|)
    ensures r.Some? ==> t <= r.value < Period(|b|)
    ensures r.Some? ==> b[Probe(|b|, key, r.value)] == None || b[Probe(|b|, key, r.value)] == Some(key)
    ensures forall u: nat :: t <= u < (if r.Some? then r.value else Period(|b|)) ==>
              b[Probe(|b|, key, u)] != None && b[Probe(|b|, key, u)] != Some(key)
    decreases Period(|b|) - t
  {
    if t == Period(|b|) then None
    else if b[Probe(|b|, key, t)] == None || b[Probe(|b|, key, t)] == Some(key) then Some(t)
    else Slot(b, key, t + 1)
  }

  function Count(b: Keys): (n: nat)
    ensures n <= |b|
  {
    if b == [] then 0 else Count(b[..|b| - 1]) + (if b[|b| - 1].Some? then 1 else 0)
  }

  /** hashmap_put succeeds: the table is not full, and probing meets the key or an empty bucket. */
  predicate Takes(b: Keys, key: int)
    requires |b| > 0
  {
    Count(b) < |b| && Slot(b, key, 0).Some?
  }

  /** The keys after hashmap_put. */
  function Enter(b: Keys, key: int): (r: Keys)
    requires |b| > 0
    ensures |r| == |b|
  {
    if Takes(b, key) then b[Probe(|b|, key, Slot(b, key, 0).value) := Some(key)] else b
  }

  /** What a caller can look up before the call: room in the table, and among the places probed. */
  lemma TakesIff(b: Keys, key: int)
    requires |b| > 0
    ensures Takes(b, key) <==>
            && Count(b) < |b|
            && exists t: nat :: t < Period(|b|) && b[Probe(|b|, key, t)] in {None, Some(key)}
  {
    if Takes(b, key) {
      assert b[Probe(|b|, key, Slot(b, key, 0).value)] in {None, Some(key)};
    }
  }

  lemma {:induction false} CountUpdate(b: Keys, i: nat, key: int)
    requires i < |b|
    ensures Count(b[i := Some(key)]) == Count(b) + (if b[i].Some? then 0 else 1)
    decreases |b|
  {
    var n := |b| - 1;
    var c := b[i := Some(key)];
    if i == n {
      assert c[..n] == b[..n];
    } else {
      assert c[..n] == b[..n][i := Some(key)];
      CountUpdate(b[..n], i, key);
    }
  }

  lemma {:induction false} CountNone(b: Keys)
    requires forall i :: 0 <= i < |b| ==> b[i] == None
    ensures Count(b) == 0
  {
    if b == [] {
    } else {
      CountNone(b[..|b| - 1]);
    }
  }

  lemma SlotIs(b: Keys, key: int, t: nat)
    requires |b| > 0 && t < Period(|b|)
    requires b[Probe(|b|, key, t)] == None || b[Probe(|b|, key, t)] == Some(key)
    requires forall u: nat :: u < t ==> b[Probe(|b|, key, u)] != None && b[Probe(|b|, key, u)] != Some(key)
    ensures Slot(b, key, 0) == Some(t)
  {
  }

  lemma NoSlot(b: Keys, key: int)
    requires |b| > 0
    requires forall u: nat :: u < Period(|b|) ==> b[Probe(|b|, key, u)] != None && b[Probe(|b|, key, u)] != Some(key)
    ensures Slot(b, key, 0) == None
  {
  }

  // ---------- keys with different first buckets ----------

  /** The keys after entering ks one after the other. */
  function EnterAll(b: Keys, ks: seq<int>): (r: Keys)
    requires |b| > 0
    ensures |r| == |b|
  {
    if ks == [] then b else Enter(EnterAll(b, ks[..|ks| - 1]), ks[|ks| - 1])
  }

  function NoKeys(n: nat): (b: Keys)
    ensures |b| == n
  {
    seq(n, _ => None)
  }

  /** The home bucket of a pid, which has at most 32 bits. */
  lemma HomeIs(pid: int, b: int)
    requires 0 <= pid < 0x1_0000_0000
    ensures IntHash(pid) % 100 == b <==> 65536 * b <= pid * 2654435761 % 6553600 < 65536 * (b + 1)
  {
    hide IntHash;
    var x := pid * 2654435761;
    var u, v := x / 6553600, x % 6553600;
    var c := v / 65536;
    assert Wraps(pid, 0, x);
    HashFrom(pid, 0, x, 100 * u + c);
    DivideIs(IntHash(pid), 100, u, c);
  }

  /** Pids that are at most 28 apart have different home buckets. */
  lemma NeighboursApart(pid: nat, d: nat)
    requires 1 <= d <= 28 && pid + d < 0x1_0000_0000
    ensures IntHash(pid) % 100 != IntHash(pid + d) % 100
  {
    hide IntHash;
    HomeIs(pid, IntHash(pid) % 100);
    HomeIs(pid + d, IntHash(pid + d) % 100);
    Shifted(pid * 2654435761, (pid + d) * 2654435761, d);
  }

  lemma Shifted(x: nat, y: nat, d: nat)
    requires 1 <= d <= 28 && y == x + d * 2654435761
    ensures y % 6553600 / 65536 != x % 6553600 / 65536
  {
    var u, v := x / 6553600, x % 6553600;
    var e := v + d * 227761;
    assert d * 2654435761 == d * 405 * 6553600 + d * 227761;
    if e < 6553600 {
      DivideIs(y, 6553600, u + d * 405, e);
    } else {
      DivideIs(y, 6553600, u + d * 405 + 1, e - 6553600);
    }
  }

  ghost predicate HomesDiffer(ks: seq<int>) {
    forall i, j :: 0 <= i < j < |ks| ==> Probe(100, ks[i], 0) != Probe(100, ks[j], 0)
  }

  /** The first n of the keys are in their home buckets, and those of the others are empty. */
  ghost predicate AtHome(b: Keys, ks: seq<int>, n: nat) {
    && |b| == 100 && Count(b) == n
    && forall i :: 0 <= i < |ks| ==> b[Probe(100, ks[i], 0)] == if i < n then Some(ks[i]) else None
  }

  lemma OneMoreAtHome(b: Keys, ks: seq<int>, n: nat)
    requires HomesDiffer(ks) && n < |ks| && AtHome(b, ks, n)
    ensures Takes(b, ks[n]) && AtHome(Enter(b, ks[n]), ks, n + 1)
  {
    hide IntHash, Probe;
    PeriodOfHundred();
    SlotIs(b, ks[n], 0);
    CountUpdate(b, Probe(100, ks[n], 0), ks[n]);
    CountFull(b, Probe(100, ks[n], 0));
  }

  lemma {:induction false} CountFull(b: Keys, i: nat)
    requires i < |b| && b[i] == None
    ensures Count(b) < |b|
  {
    var n := |b| - 1;
    if i == n {
    } else {
      CountFull(b[..n], i);
    }
  }

  /** Keys with different home buckets are all taken, each by its own. */
  lemma {:induction false} ApartTaken(ks: seq<int>, n: nat)
    requires HomesDiffer(ks) && n <= |ks|
    ensures AtHome(EnterAll(NoKeys(100), ks[..n]), ks, n)
    ensures n < |ks| ==> Takes(EnterAll(NoKeys(100), ks[..n]), ks[n])
    decreases n
  {
    hide Takes, Enter, IntHash, AtHome, Probe;
    if n == 0 {
      NobodyAtHome(ks);
    } else {
      ApartTaken(ks, n - 1);
      assert ks[..n][..n - 1] == ks[..n - 1];
      OneMoreAtHome(EnterAll(NoKeys(100), ks[..n - 1]), ks, n - 1);
    }
    if n < |ks| {
      OneMoreAtHome(EnterAll(NoKeys(100), ks[..n]), ks, n);
    }
  }

  lemma NobodyAtHome(ks: seq<int>)
    ensures AtHome(NoKeys(100), ks, 0)
  {
    CountNone(NoKeys(100));
  }

  /** A fresh table of 100 takes any pids that are less than 29 apart, as when fork counts up. */
  lemma NeighboursTaken(ks: seq<int>, n: nat)
    requires forall i, j :: 0 <= i < j < |ks| ==> 1 <= ks[j] - ks[i] <= 28
    requires forall i :: 0 <= i < |ks| ==> 0 <= ks[i] < 0x1_0000_0000
    requires n < |ks|
    ensures Takes(EnterAll(NoKeys(100), ks[..n]), ks[n])
  {
    hide IntHash;
    forall i, j | 0 <= i < j < |ks|
      ensures Probe(100, ks[i], 0) != Probe(100, ks[j], 0)
    {
      NeighboursApart(ks[i], ks[j] - ks[i]);
    }
    ApartTaken(ks, n);
  }

  // ---------- eleven keys with the same first bucket ----------

  ghost predicate SameHome(ks: seq<int>) {
    && (forall i, j :: 0 <= i < j < |ks| ==> ks[i] != ks[j])
    && (forall i, j :: 0 <= i < j < |ks| ==> IntHash(ks[i]) % 100 == IntHash(ks[j]) % 100)
  }

  /** The first ten places in the order of probing are pairwise different. */
  lemma PlacesDiffer(key: int, t: nat, u: nat)
    requires t < u < 10
    ensures Probe(100, key, t) != Probe(100, key, u)
  {
    var h := IntHash(key) % 100;
    SquaresDiffer(t, u);
    NotCongruent(h + t * t, h + u * u);
  }

  lemma SquaresDiffer(t: nat, u: nat)
    requires t < u < 10
    ensures t * t < u * u <= t * t + 81
  {
    assert u * u <= 9 * u;
    assert t * t <= t * u && t * u < u * u;
  }

  lemma NotCongruent(a: nat, b: nat)
    requires a < b < a + 100
    ensures a % 100 != b % 100
  {
  }

  /** Probing for key meets the keys ks in the first |ks| places, and then empty buckets. */
  ghost predicate FilledBy(b: Keys, key: int, ks: seq<int>) {
    && |b| == 100 && |ks| <= 10 && Count(b) == |ks|
    && forall t: nat :: t < 10 ==> b[Probe(100, key, t)] == if t < |ks| then Some(ks[t]) else None
  }

  lemma FillOne(b: Keys, key: int, ks: seq<int>, x: int)
    requires FilledBy(b, key, ks) && |ks| < 10 && x !in ks && IntHash(x) % 100 == IntHash(key) % 100
    ensures Takes(b, x) && FilledBy(Enter(b, x), key, ks + [x])
  {
    PeriodOfHundred();
    var n := |ks|;
    assert forall t: nat :: Probe(100, x, t) == Probe(100, key, t);
    SlotIs(b, x, n);
    CountUpdate(b, Probe(100, x, n), x);
    forall t: nat | t < 10
      ensures Enter(b, x)[Probe(100, key, t)] == if t < n + 1 then Some((ks + [x])[t]) else None
    {
      if t < n {
        PlacesDiffer(key, t, n);
      } else if t > n {
        PlacesDiffer(key, n, t);
      }
    }
  }

  lemma NothingFilled(key: int)
    ensures FilledBy(NoKeys(100), key, [])
  {
    CountNone(NoKeys(100));
  }

  lemma {:induction false} FillAll(key: int, ks: seq<int>)
    requires |ks| <= 10 && SameHome(ks + [key])
    ensures FilledBy(EnterAll(NoKeys(100), ks), key, ks)
    decreases |ks|
  {
    hide Takes, Enter, IntHash, FilledBy;
    var n := |ks|;
    if n == 0 {
      NothingFilled(key);
    } else {
      assert forall i :: 0 <= i < n ==> (ks + [key])[i] == ks[i];
      assert (ks + [key])[n] == key;
      FillAll(key, ks[..n - 1]);
      assert ks == ks[..n - 1] + [ks[n - 1]];
      FillOne(EnterAll(NoKeys(100), ks[..n - 1]), key, ks[..n - 1], ks[n - 1]);
    }
  }

  /** Of keys with one home bucket a table of 100 takes ten, and not the eleventh. */
  lemma EleventhFails(ks: seq<int>, i: nat)
    requires |ks| == 11 && SameHome(ks) && i < 11
    ensures Takes(EnterAll(NoKeys(100), ks[..i]), ks[i]) <==> i < 10
  {
    assert ks[..i] + [ks[i]] == ks[..i + 1];
    FillAll(ks[i], ks[..i]);
    var b := EnterAll(NoKeys(100), ks[..i]);
    if i < 10 {
      FillOne(b, ks[i], ks[..i], ks[i]);
    } else {
      PeriodOfHundred();
      NoSlot(b, ks[i]);
    }
  }

  lemma {:induction false} NotEntered(key: int, ks: seq<int>)
    requires key !in ks
    ensures Some(key) !in EnterAll(NoKeys(100), ks)
    decreases |ks|
  {
    if ks == [] {
    } else {
      NotEntered(key, ks[..|ks| - 1]);
    }
  }

  const COLLIDING := [1036, 1151, 1180, 1295, 1410, 1554, 1669, 1784, 1813, 1928, 2043]

  lemma Quotient(x: nat, q: nat)
    requires 6553600 * q <= x < 6553600 * q + 65536
    ensures (x / 65536) % 100 == 0
  {
    assert x / 65536 == 100 * q;
  }

  lemma SmallHash(key: nat)
    requires key < 4096
    ensures IntHash(key) == key * 2654435761 / 65536
  {
    assert key % TWO_TO_64 == key;
    assert key * 2654435761 < TWO_TO_64;
  }

  lemma Home(key: nat, q: nat)
    requires key < 4096 && 6553600 * q <= key * 2654435761 < 6553600 * q + 65536
    ensures IntHash(key) % 100 == 0
  {
    hide IntHash;
    SmallHash(key);
    Quotient(key * 2654435761, q);
  }

  lemma HomeIsZero(i: nat)
    requires i < 11
    ensures IntHash(COLLIDING[i]) % 100 == 0
  {
    hide IntHash;
    Home(1036, 419616);
    Home(1151, 466195);
    Home(1180, 477941);
    Home(1295, 524520);
    Home(1410, 571099);
    Home(1554, 629424);
    Home(1669, 676003);
    Home(1784, 722582);
    Home(1813, 734328);
    Home(1928, 780907);
    Home(2043, 827486);
  }

  /** Such pids exist, and small ones. */
  lemma CollidingPids()
    ensures |COLLIDING| == 11 && SameHome(COLLIDING)
  {
    hide IntHash;
    forall i, j | 0 <= i < j < |COLLIDING|
      ensures IntHash(COLLIDING[i]) % 100 == IntHash(COLLIDING[j]) % 100
    {
      HomeIsZero(i);
      HomeIsZero(j);
    }
  }

  class Table<V> {
    const buckets: array<Option<Node<V>>>
    var size: nat
    ghost var contents: map<int, V>
    ghost var steps: map<int, nat>  // after how many steps a stored key is found

    ghost function Keys(): (b: Keys)
      reads buckets
      ensures |b| == buckets.Length
    {
      seq(buckets.Length, i requires 0 <= i < buckets.Length reads buckets =>
        if buckets[i].Some? then Some(buckets[i].value.key) else None)
    }

    /** The first n probes for the key meet occupied buckets. */
    ghost predicate Occupied(key: int, n: nat)
      requires buckets.Length > 0
      reads this, buckets
    {
      forall u: nat :: u < n ==> buckets[Probe(buckets.Length, key, u)].Some?
    }

    ghost predicate Stored(key: int)
      requires buckets.Length > 0 && key in contents && key in steps
      reads this, buckets
    {
      && buckets[Probe(buckets.Length, key, steps[key])] == Some(Node(key, contents[key]))
      && Occupied(key, steps[key]) && steps[key] < Period(buckets.Length)
    }

    ghost predicate Valid()
      reads this, buckets
    {
      && buckets.Length > 0 && size == Count(Keys()) && contents.Keys == steps.Keys
      && (forall key :: key in contents ==> Stored(key))
      && (forall i :: 0 <= i < buckets.Length && buckets[i].Some? ==>
            && buckets[i].value.key in contents
            && Probe(buckets.Length, buckets[i].value.key, steps[buckets[i].value.key]) == i)
    }

    constructor (capacity: nat)
      requires capacity > 0
      ensures Valid() && fresh(buckets) && buckets.Length == capacity && contents == map[]
      ensures Keys() == seq(capacity, _ => None)
    {
      buckets := new Option<Node<V>>[capacity](_ => None);
      size, contents, steps := 0, map[], map[];
      new;
      CountNone(Keys());
    }

    /** What is stored is among the keys, and nothing else. */
    lemma KeysAreStored(key: int)
      requires Valid()
      ensures Some(key) in Keys() <==> key in contents
    {
      if key in contents {
        assert Stored(key);
        assert Keys()[Probe(buckets.Length, key, steps[key])] == Some(key);
      }
      if Some(key) in Keys() {
        var i :| 0 <= i < buckets.Length && Keys()[i] == Some(key);
        assert buckets[i].Some? && buckets[i].value.key == key;
      }
    }

    /** A key that is stored is refused only by a full table. */
    lemma KnownIsTaken(key: int)
      requires Valid() && key in contents
      ensures Takes(Keys(), key) <==> Count(Keys()) < |Keys()|
    {
      assert Stored(key);
      assert Keys()[Probe(buckets.Length, key, steps[key])] == Some(key);
      TakesIff(Keys(), key);
    }

    /** No key is stored twice. */
    lemma KeysDistinct(i: nat, j: nat)
      requires Valid() && i < j < buckets.Length && buckets[i].Some? && buckets[j].Some?
      ensures buckets[i].value.key != buckets[j].value.key
    {
    }

    method Get(key: int) returns (value: Option<V>)
      requires Valid()
      ensures value == if key in contents then Some(contents[key]) else None
    {
      var original := IntHash(key) % buckets.Length;
      var index, step := original, 1;
      Remainder(0, original, buckets.Length);
      var current := buckets[index];
      while current.Some?
        invariant 1 <= step <= Period(buckets.Length)
        invariant index == Probe(buckets.Length, key, step - 1) && current == buckets[index]
        invariant key in contents ==> step - 1 <= steps[key]
        decreases Period(buckets.Length) - step
      {
        if current.value.key == key {
          return Some(current.value.value);
        }
        FirstReturn(buckets.Length, key, step);
        index := (original + step * step) % buckets.Length;
        step := step + 1;
        current := buckets[index];
        if index == original {
          break;
        }
      }
      return None;
    }

    /** The probe loop of hashmap_put: the step at which it stops, or none if it comes full circle. */
    method FindSlot(key: int) returns (slot: Option<nat>)
      requires Valid()
      ensures slot == Slot(Keys(), key, 0)
    {
      var original := IntHash(key) % buckets.Length;
      var index, step := original, 1;
      Remainder(0, original, buckets.Length);
      var current := buckets[index];
      while current.Some?
        invariant 1 <= step <= Period(buckets.Length)
        invariant index == Probe(buckets.Length, key, step - 1) && current == buckets[index]
        invariant MeetsOthers(key, step - 1)
        decreases Period(buckets.Length) - step
      {
        if current.value.key == key {
          SlotIs(Keys(), key, step - 1);
          return Some(step - 1);
        }
        FirstReturn(buckets.Length, key, step);
        index := (original + step * step) % buckets.Length;
        step := step + 1;
        current := buckets[index];
        if index == original {
          NoSlot(Keys(), key);
          return None;
        }
      }
      SlotIs(Keys(), key, step - 1);
      return Some(step - 1);
    }

    /** A stored key is met before any empty bucket. */
    lemma StoredIsMet(key: int, t: nat)
      requires Valid() && t < Period(buckets.Length) && MeetsOthers(key, t)
      requires buckets[Probe(buckets.Length, key, t)] == None
      ensures key !in contents
    {
    }

    /** 1: the key was added; 0: its value was replaced; -1: nothing was changed. */
    method Put(key: int, value: V) returns (r: int)
      requires Valid()
      modifies this, buckets
      ensures Valid() && Keys() == Enter(old(Keys()), key)
      ensures r == -1 || r == 0 || r == 1
      ensures r != -1 <==> Takes(old(Keys()), key)
      ensures r == -1 ==> contents == old(contents) && buckets[..] == old(buckets[..])
      ensures r == 0 ==> key in old(contents)
      ensures r == 1 ==> key !in old(contents)
      ensures r != -1 ==> contents == old(contents)[key := value]
    {
      if size >= buckets.Length {
        return -1;
      }
      var slot := FindSlot(key);
      if slot == None {
        return -1;
      }
      var index := Probe(buckets.Length, key, slot.value);
      KeyAt(index);
      if buckets[index].Some? {
        Replace(index, key, value);
        return 0;
      }
      StoredIsMet(key, slot.value);
      Add(index, key, value, slot.value);
      return 1;
    }

    /** The first n probes for the key meet other keys. */
    ghost predicate MeetsOthers(key: int, n: nat)
      requires buckets.Length > 0
      reads buckets
    {
      forall u: nat :: u < n ==>
        Keys()[Probe(buckets.Length, key, u)] != None && Keys()[Probe(buckets.Length, key, u)] != Some(key)
    }

    method Replace(index: nat, key: int, value: V)
      requires Valid() && index < buckets.Length && buckets[index].Some? && buckets[index].value.key == key
      modifies this`contents, buckets
      ensures Valid() && contents == old(contents)[key := value]
      ensures Keys() == old(Keys())[index := Some(key)]
    {
      buckets[index] := Some(Node(key, value));
      contents := contents[key := value];
      assert Keys() == old(Keys());
    }

    method Add(index: nat, key: int, value: V, ghost step: nat)
      requires Valid() && key !in contents && step < Period(buckets.Length)
      requires index == Probe(buckets.Length, key, step) && buckets[index].None? && Occupied(key, step)
      modifies this, buckets
      ensures Valid() && contents == old(contents)[key := value]
      ensures Keys() == old(Keys())[index := Some(key)]
    {
      hide Count, Table.Keys;
      CountUpdate(Keys(), index, key);
      KeyAt(index);
      SetBucket(index, key, value);
      size := size + 1;
      contents := contents[key := value];
      steps := steps[key := step];
    }

    lemma KeyAt(index: nat)
      requires index < buckets.Length
      ensures Keys()[index] == if buckets[index].Some? then Some(buckets[index].value.key) else None
    {
    }

    method SetBucket(index: nat, key: int, value: V)
      requires index < buckets.Length
      modifies buckets
      ensures buckets[..] == old(buckets[..])[index := Some(Node(key, value))]
      ensures Keys() == old(Keys())[index := Some(key)]
    {
      buckets[index] := Some(Node(key, value));
      assert Keys() == old(Keys())[index := Some(key)];
    }
  }
}
