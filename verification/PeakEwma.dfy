// The peak-sensitive moving average of connection times (lib/src/metric.rs),
// over the reals.
module PeakEwma {
  predicate Multiplies(w: real -> real, a: real, b: real) {
    w(a + b) == w(a) * w(b)
  }

  // A decay over elapsed time: `w(d)` stands for the exponential of minus `d`
  // over the decay constant.
  ghost predicate DecayLaw(w: real -> real) {
    && w(0.0) == 1.0
    && (forall d :: d >= 0.0 ==> 0.0 < w(d) <= 1.0)
    && (forall a, b :: a >= 0.0 && b >= 0.0 ==> Multiplies(w, a, b))
  }

  datatype Ewma = Ewma(rtt: real, lastEvent: real)

  // Instants do not go back; a difference that would be negative is zero.
  function Elapsed(e: Ewma, now: real): real {
    if now < e.lastEvent then 0.0 else now - e.lastEvent
  }

  function Observed(w: real -> real, e: Ewma, x: real, now: real): Ewma {
    if x > e.rtt then Ewma(x, now)
    else
      var weight := w(Elapsed(e, now));
      Ewma(e.rtt * weight + x * (1.0 - weight), now)
  }

  // active_requests + 1, as a wrapping u32.
  function Slots(active: nat): nat {
    (active + 1) % 0x1_0000_0000
  }

  function Cost(w: real -> real, e: Ewma, active: nat, now: real): real {
    Slots(active) as real * e.rtt * w(Elapsed(e, now))
  }

  class PeakEWMA {
    const w: real -> real
    var rtt: real
    var lastEvent: real

    ghost function View(): Ewma
      reads this
    {
      Ewma(rtt, lastEvent)
    }

    constructor (w: real -> real, now: real)
      ensures this.w == w && View() == Ewma(50000000.0, now)
    {
      this.w := w;
      rtt := 50000000.0;
      lastEvent := now;
    }

    method Observe(x: real, now: real)
      modifies this
      ensures View() == Observed(w, old(View()), x, now)
    {
      var dur := if now < lastEvent then 0.0 else now - lastEvent;
      if x > rtt {
        rtt := x;
      } else {
        var weight := w(dur);
        rtt := rtt * weight + x * (1.0 - weight);
      }
      lastEvent := now;
    }

    method Get(active: nat, now: real) returns (cost: real)
      ensures cost == Cost(w, View(), active, now)
    {
      var dur := if now < lastEvent then 0.0 else now - lastEvent;
      cost := Slots(active) as real * rtt * w(dur);
    }

    method GetMut(active: nat, now: real) returns (cost: real)
      modifies this
      ensures View() == Observed(w, old(View()), 0.0, now)
      ensures cost == Slots(active) as real * View().rtt
    {
      Observe(0.0, now);
      cost := Slots(active) as real * rtt;
    }
  }

  lemma NegativeProduct(x: real, y: real)
    requires x < 0.0 && y > 0.0
    ensures x * y < 0.0
  {
  }

  lemma Between(a: real, b: real, weight: real)
    requires a <= b && 0.0 <= weight <= 1.0
    ensures a <= b * weight + a * (1.0 - weight) <= b
  {
    assert b * weight + a * (1.0 - weight) == a + (b - a) * weight;
    assert b * weight + a * (1.0 - weight) == b - (b - a) * (1.0 - weight);
  }

  // A sample leaves the estimate between itself and the larger of it and the
  // old estimate.
  lemma ObserveBetween(w: real -> real, e: Ewma, x: real, now: real)
    requires DecayLaw(w)
    ensures x <= Observed(w, e, x, now).rtt <= if x > e.rtt then x else e.rtt
  {
    if x <= e.rtt {
      Between(x, e.rtt, w(Elapsed(e, now)));
    }
  }

  // A higher sample is taken at once. The excess over a lower one decays as an
  // idle estimate does, by the factor of the elapsed time.
  lemma ExcessDecays(w: real -> real, e: Ewma, x: real, now: real)
    ensures x > e.rtt ==> Observed(w, e, x, now) == Ewma(x, now)
    ensures x <= e.rtt ==>
      Observed(w, e, x, now).rtt - x == Observed(w, Ewma(e.rtt - x, e.lastEvent), 0.0, now).rtt
    ensures x <= e.rtt && e.lastEvent <= now ==>
      Observed(w, e, x, now).rtt - x == (e.rtt - x) * w(now - e.lastEvent)
    ensures x <= e.rtt && now <= e.lastEvent ==> Observed(w, e, x, now).rtt - x == (e.rtt - x) * w(0.0)
  {
    var weight := w(Elapsed(e, now));
    assert e.rtt * weight + x * (1.0 - weight) - x == (e.rtt - x) * weight;
  }

  datatype Sample = Sample(x: real, now: real)

  function ObservedAll(w: real -> real, e: Ewma, samples: seq<Sample>): Ewma {
    if samples == [] then e
    else
      var last := samples[|samples| - 1];
      Observed(w, ObservedAll(w, e, samples[..|samples| - 1]), last.x, last.now)
  }

  // Over any run the estimate is never below the latest sample, nor above the
  // largest of the initial estimate and all samples.
  lemma {:induction false} RunBetween(w: real -> real, e: Ewma, samples: seq<Sample>, top: real)
    requires DecayLaw(w) && e.rtt <= top
    requires forall i :: 0 <= i < |samples| ==> samples[i].x <= top
    ensures ObservedAll(w, e, samples).rtt <= top
    ensures samples != [] ==> samples[|samples| - 1].x <= ObservedAll(w, e, samples).rtt
  {
    if samples != [] {
      var before, last := samples[..|samples| - 1], samples[|samples| - 1];
      RunBetween(w, e, before, top);
      ObserveBetween(w, ObservedAll(w, e, before), last.x, last.now);
    }
  }

  // `get` answers what `get_mut` would, exactly when the estimate is not
  // negative or there is nothing to multiply it by.
  lemma GetIsGetMut(w: real -> real, e: Ewma, active: nat, now: real)
    requires DecayLaw(w)
    ensures Cost(w, e, active, now) == Slots(active) as real * Observed(w, e, 0.0, now).rtt
      <==> e.rtt >= 0.0 || Slots(active) == 0
  {
    var n, weight := Slots(active) as real, w(Elapsed(e, now));
    Associative(n, e.rtt, weight);
    if e.rtt < 0.0 {
      assert Observed(w, e, 0.0, now).rtt == 0.0;
      if Slots(active) != 0 {
        NegativeProduct(e.rtt, n);
        NegativeProduct(e.rtt * n, weight);
        assert n * e.rtt == e.rtt * n;
      }
    }
  }

  // A backend costs its decayed estimate for each active connection and one
  // more, except at the largest count of a u32, where it costs nothing.
  lemma CostIsPerConnection(w: real -> real, e: Ewma, active: nat, now: real)
    requires DecayLaw(w) && e.rtt > 0.0 && active < 0x1_0000_0000
    ensures Cost(w, e, active, now) == (active as real + 1.0) * Observed(w, e, 0.0, now).rtt <==> active != 0xFFFF_FFFF
    ensures Cost(w, e, active, now) == 0.0 <==> active == 0xFFFF_FFFF
  {
    var n, weight := Slots(active) as real, w(Elapsed(e, now));
    PositiveProduct(e.rtt, weight);
    var estimate := e.rtt * weight;
    assert Observed(w, e, 0.0, now).rtt == estimate;
    Associative(n, e.rtt, weight);
    assert Cost(w, e, active, now) == n * estimate;
    PositiveProduct(active as real + 1.0, estimate);
    if active == 0xFFFF_FFFF {
      assert n == 0.0;
    } else {
      assert n == active as real + 1.0;
    }
  }

  lemma PositiveProduct(x: real, y: real)
    requires x > 0.0 && y > 0.0
    ensures x * y > 0.0
  {
  }

  lemma Associative(a: real, b: real, c: real)
    ensures a * b * c == a * (b * c)
  {
  }

  // Decaying in two idle steps is decaying once over the total time.
  lemma IdleStepsCompose(w: real -> real, e: Ewma, t1: real, t2: real)
    requires DecayLaw(w) && e.rtt >= 0.0 && e.lastEvent <= t1 <= t2
    ensures Observed(w, Observed(w, e, 0.0, t1), 0.0, t2) == Observed(w, e, 0.0, t2)
  {
    var a, b := t1 - e.lastEvent, t2 - t1;
    var mid := Observed(w, e, 0.0, t1);
    assert mid.rtt == e.rtt * w(a) >= 0.0;
    assert Multiplies(w, a, b) && a + b == t2 - e.lastEvent;
    Associative(e.rtt, w(a), w(b));
  }

  // From a higher estimate, samples of one value leave the excess over it that
  // a single idle decay over the whole time leaves.
  lemma {:induction false} EqualSamplesCompose(w: real -> real, e: Ewma, x: real, samples: seq<Sample>)
    requires DecayLaw(w) && x <= e.rtt && samples != []
    requires forall i :: 0 <= i < |samples| ==> samples[i].x == x && e.lastEvent <= samples[i].now
    requires forall i, j :: 0 <= i < j < |samples| ==> samples[i].now <= samples[j].now
    ensures var end := samples[|samples| - 1].now;
      && ObservedAll(w, e, samples).rtt - x == Observed(w, Ewma(e.rtt - x, e.lastEvent), 0.0, end).rtt
      && ObservedAll(w, e, samples).lastEvent == end
  {
    var before, last := samples[..|samples| - 1], samples[|samples| - 1];
    var excess := Ewma(e.rtt - x, e.lastEvent);
    if before == [] {
      ExcessDecays(w, e, x, last.now);
    } else {
      var mid, t := ObservedAll(w, e, before), before[|before| - 1].now;
      EqualSamplesCompose(w, e, x, before);
      ObserveBetween(w, excess, 0.0, t);
      ExcessDecays(w, mid, x, last.now);
      IdleStepsCompose(w, excess, t, last.now);
    }
  }

  // Costs decay by a factor of the elapsed time alone.
  lemma CostDecays(w: real -> real, e: Ewma, active: nat, t1: real, t2: real)
    requires DecayLaw(w) && e.lastEvent <= t1 <= t2
    ensures Cost(w, e, active, t2) == Cost(w, e, active, t1) * w(t2 - t1)
  {
    var a, b := t1 - e.lastEvent, t2 - t1;
    assert Multiplies(w, a, b) && a + b == t2 - e.lastEvent;
    Associative(Slots(active) as real * e.rtt, w(a), w(b));
  }
}
