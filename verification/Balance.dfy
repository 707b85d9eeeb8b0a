// The load balancing algorithms (client/src/balance.rs). An item is named by
// its position in the list of available backends.
module Balance {
  import opened Wrappers
  import opened PeakEwma

  // ----- Least loaded time -----

  predicate LeftmostMin(costs: seq<real>, k: nat) {
    && k < |costs|
    && (forall i :: 0 <= i < |costs| ==> costs[k] <= costs[i])
    && (forall i :: 0 <= i < k ==> costs[k] < costs[i])
  }

  method LeastLoadedTime(costs: seq<real>) returns (r: Option<nat>)
    ensures r == None <==> costs == []
    ensures r.Some? ==> LeftmostMin(costs, r.value)
  {
    var best: Option<(real, nat)> := None;
    for i := 0 to |costs|
      invariant best == None <==> i == 0
      invariant best.Some? ==> best.value.1 < i && best.value.0 == costs[best.value.1]
      invariant best.Some? ==> LeftmostMin(costs[..i], best.value.1)
    {
      var cost := costs[i];
      match best {
        case None => best := Some((cost, i));
        case Some((least, k)) =>
          if least <= cost {
            best := Some((least, k));
          } else {
            best := Some((cost, i));
          }
      }
    }
    assert costs[..|costs|] == costs;
    match best {
      case None => return None;
      case Some((_, k)) => return Some(k);
    }
  }

  datatype Load = Load(average: Ewma, active: nat)

  function CostsAt(w: real -> real, loads: seq<Load>, now: real): (costs: seq<real>)
    ensures |costs| == |loads|
  {
    seq(|loads|, i requires 0 <= i < |loads| => Cost(w, loads[i].average, loads[i].active, now))
  }

  lemma ScaleOrder(a: real, b: real, c: real)
    requires c > 0.0
    ensures a <= b <==> a * c <= b * c
  {
    if a <= b {
      assert (b - a) * c >= 0.0;
    } else {
      assert (a - b) * c > 0.0;
    }
  }

  // While nothing happens, the choice stays the same as time passes.
  lemma ChoiceIsStable(w: real -> real, loads: seq<Load>, t1: real, t2: real, k: nat)
    requires DecayLaw(w) && t1 <= t2
    requires forall i :: 0 <= i < |loads| ==> loads[i].average.lastEvent <= t1
    ensures LeftmostMin(CostsAt(w, loads, t1), k) <==> LeftmostMin(CostsAt(w, loads, t2), k)
  {
    if k < |loads| {
      forall i | 0 <= i < |loads|
        ensures CostsAt(w, loads, t1)[k] <= CostsAt(w, loads, t1)[i] <==>
          CostsAt(w, loads, t2)[k] <= CostsAt(w, loads, t2)[i]
        ensures CostsAt(w, loads, t1)[k] < CostsAt(w, loads, t1)[i] <==>
          CostsAt(w, loads, t2)[k] < CostsAt(w, loads, t2)[i]
      {
        SameOrder(w, loads[k], loads[i], t1, t2);
        SameOrder(w, loads[i], loads[k], t1, t2);
      }
    }
  }

  lemma SameOrder(w: real -> real, x: Load, y: Load, t1: real, t2: real)
    requires DecayLaw(w) && t1 <= t2 && x.average.lastEvent <= t1 && y.average.lastEvent <= t1
    ensures Cost(w, x.average, x.active, t1) <= Cost(w, y.average, y.active, t1) <==>
      Cost(w, x.average, x.active, t2) <= Cost(w, y.average, y.active, t2)
  {
    CostDecays(w, x.average, x.active, t1, t2);
    CostDecays(w, y.average, y.active, t1, t2);
    ScaleOrder(Cost(w, x.average, x.active, t1), Cost(w, y.average, y.active, t1), w(t2 - t1));
  }

  // The decayed estimate for each active connection and one more.
  function PerConnection(w: real -> real, load: Load, now: real): real {
    (load.active as real + 1.0) * Observed(w, load.average, 0.0, now).rtt
  }

  predicate Counts(load: Load) {
    load.average.rtt > 0.0 && load.active < 0xFFFF_FFFF
  }

  lemma CostIs(w: real -> real, load: Load, now: real)
    requires DecayLaw(w) && Counts(load)
    ensures Cost(w, load.average, load.active, now) == PerConnection(w, load, now)
  {
    CostIsPerConnection(w, load.average, load.active, now);
  }

  // The choice is the least decayed estimate for each active connection and
  // one more; of equal estimates it has the fewest connections.
  lemma LeastIsPerConnection(w: real -> real, loads: seq<Load>, now: real, k: nat, i: nat)
    requires DecayLaw(w) && LeftmostMin(CostsAt(w, loads, now), k) && i < |loads|
    requires forall j :: 0 <= j < |loads| ==> Counts(loads[j])
    ensures PerConnection(w, loads[k], now) <= PerConnection(w, loads[i], now)
    ensures loads[k].average == loads[i].average ==> loads[k].active <= loads[i].active
  {
    CostIs(w, loads[k], now);
    CostIs(w, loads[i], now);
    assert CostsAt(w, loads, now)[k] <= CostsAt(w, loads, now)[i];
    if loads[k].average == loads[i].average {
      FewerCostLess(w, loads[k], loads[i], now);
    }
  }

  lemma FewerCostLess(w: real -> real, x: Load, y: Load, now: real)
    requires DecayLaw(w) && Counts(x) && x.average == y.average
    requires PerConnection(w, x, now) <= PerConnection(w, y, now)
    ensures x.active <= y.active
  {
    var estimate := Observed(w, x.average, 0.0, now).rtt;
    PositiveProduct(x.average.rtt, w(Elapsed(x.average, now)));
    ScaleOrder(x.active as real + 1.0, y.active as real + 1.0, estimate);
  }

  // ----- Round robin -----

  function NextIndex(index: nat, n: nat): nat
    requires n > 0
  {
    (index + 1) % n
  }

  // The stored index after calls with lists of these lengths.
  function IndexAfter(index: nat, lengths: seq<nat>): nat
    requires 0 !in lengths
  {
    if lengths == [] then index
    else NextIndex(IndexAfter(index, lengths[..|lengths| - 1]), lengths[|lengths| - 1])
  }

  class RoundRobin {
    var nextItemIndex: nat

    constructor ()
      ensures nextItemIndex == 0
    {
      nextItemIndex := 0;
    }

    method NextAvailableBackend(n: nat) returns (r: Option<nat>)
      requires n > 0
      modifies this
      ensures r == if old(nextItemIndex) < n then Some(old(nextItemIndex)) else None
      ensures nextItemIndex == NextIndex(old(nextItemIndex), n)
    {
      var next := nextItemIndex;
      r := if next < n then Some(next) else None;
      nextItemIndex := (next + 1) % n;
    }
  }

  // A call misses only if its list is shorter than the previous one, and then
  // the next call on a list no shorter than this one hits. The first call hits.
  lemma {:induction false} MissesOnlyAfterShrinking(lengths: seq<nat>, n: nat, n': nat)
    requires 0 !in lengths && 0 < n <= n'
    ensures IndexAfter(0, lengths) >= n ==> lengths != [] && n < lengths[|lengths| - 1]
    ensures IndexAfter(0, lengths + [n]) < n'
  {
    assert (lengths + [n])[..|lengths|] == lengths;
  }

  // How many of the next k calls on an unchanged list of n items yield item a.
  function Hits(index: nat, n: nat, k: nat, a: nat): nat
    requires n > 0
    decreases k
  {
    if k == 0 then 0
    else (if index == a then 1 else 0) + Hits(NextIndex(index, n), n, k - 1, a)
  }

  // How many calls before item a comes up.
  function Wait(index: nat, n: nat, a: nat): nat
    requires index < n && a < n
  {
    if index <= a then a - index else a + n - index
  }

  lemma NextIndexSmall(index: nat, n: nat)
    requires index < n
    ensures NextIndex(index, n) == if index + 1 == n then 0 else index + 1
  {
  }

  // Within n calls an item comes up once, after its wait.
  lemma {:induction false} HitsAre(index: nat, n: nat, k: nat, a: nat)
    requires index < n && a < n && k <= n
    ensures Hits(index, n, k, a) == if k <= Wait(index, n, a) then 0 else 1
    decreases k
  {
    if k > 0 {
      NextIndexSmall(index, n);
      HitsAre(NextIndex(index, n), n, k - 1, a);
    }
  }

  function Advanced(index: nat, n: nat, k: nat): nat
    requires index < n
  {
    if index + k < n then index + k else index + k - n
  }

  lemma {:induction false} HitsSplit(index: nat, n: nat, j: nat, k: nat, a: nat)
    requires index < n && j <= n
    ensures Hits(index, n, j + k, a) == Hits(index, n, j, a) + Hits(Advanced(index, n, j), n, k, a)
    decreases j
  {
    if j > 0 {
      NextIndexSmall(index, n);
      HitsSplit(NextIndex(index, n), n, j - 1, k, a);
    }
  }

  // Any n consecutive hits yield every item exactly once, and the counts of
  // two items after k calls differ by at most one.
  lemma {:induction false} RoundRobinFair(index: nat, n: nat, k: nat, a: nat, b: nat)
    requires index < n && a < n && b < n
    ensures Hits(index, n, n, a) == 1
    ensures -1 <= Hits(index, n, k, a) - Hits(index, n, k, b) <= 1
    decreases k
  {
    HitsAre(index, n, n, a);
    HitsAre(index, n, n, b);
    if k <= n {
      HitsAre(index, n, k, a);
      HitsAre(index, n, k, b);
    } else {
      RoundRobinFair(index, n, k - n, a, b);
      HitsSplit(index, n, n, k - n, a);
      HitsSplit(index, n, n, k - n, b);
    }
  }

  // ----- Uri hash -----

  // Where the ring's backend id leads in a list of n.
  function Probe(ring: nat, n: nat): (k: nat)
    requires n > 0
    ensures k < n
  {
    if ring < n then ring else (ring + 1) % n
  }

  // An id beyond the list leads on from the one before, so that any n in a row
  // lead to every position once; the first of them leads to the second item.
  lemma {:induction false} BeyondSpreads(ring: nat, n: nat, a: nat)
    requires 0 < n <= ring && a < n
    ensures Probe(n, n) == if n == 1 then 0 else 1
    ensures Probe(ring + 1, n) == NextIndex(Probe(ring, n), n)
    ensures Hits(Probe(ring, n), n, n, a) == 1
  {
    NextIndexSmall(Probe(ring, n), n);
    WrapsNext(ring + 1, n);
    WrapsNext(n, n);
    HitsAre(Probe(ring, n), n, n, a);
  }

  lemma WrapsNext(m: nat, n: nat)
    requires n > 0
    ensures (m + 1) % n == if m % n + 1 == n then 0 else m % n + 1
  {
    var q, r := m / n, m % n;
    assert m == n * q + r;
    if r + 1 == n {
      assert n * (q + 1) == n * q + n;
      WrapsMultiple(m + 1, n, q + 1, 0);
    } else {
      WrapsMultiple(m + 1, n, q, r + 1);
    }
  }

  lemma WrapsMultiple(m: nat, n: nat, q: nat, r: nat)
    requires r < n && m == n * q + r
    ensures m % n == r
  {
    var q', r' := m / n, m % n;
    assert n * (q - q') == r' - r && n * (q' - q) == r - r';
    if q' < q {
      Multiples(n, q - q');
    } else if q < q' {
      Multiples(n, q' - q);
    }
  }

  lemma Multiples(n: nat, k: nat)
    requires k > 0
    ensures n * k >= n
  {
    assert n * k == n * (k - 1) + n;
  }

  // `ring` is the ring's backend id for the host. The result does not depend
  // on anything but it and the length of the list.
  method UriHash(ring: Option<nat>, n: nat) returns (r: Option<nat>, ghost probes: nat)
    requires n > 0
    ensures r.Some? && r.value < n && probes <= 2
    ensures match ring
      case None => r == Some(0) && probes == 0
      case Some(id) => r == Some(Probe(id, n)) && probes > 0
  {
    probes := 0;
    if ring.Some? {
      var bid := ring.value;
      for i := 0 to n + 1
        invariant probes == i <= 1
        invariant i == 0 ==> bid == ring.value
        invariant i == 1 ==> ring.value >= n && bid == (ring.value + 1) % n
      {
        probes := probes + 1;
        if bid < n {
          return Some(bid), probes;
        } else {
          bid := (bid + 1) % n;
        }
      }
    }
    return Some(0), probes;
  }
}
