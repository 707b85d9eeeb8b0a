// Load accounting of one backend (client/src/metric.rs): a log of operations
// replayed on two copies, one of which readers see.
module Metric {
  import opened Backends
  import opened PeakEwma

  const TWO32 := 0x1_0000_0000
  const MAX64 := 0xFFFF_FFFF_FFFF_FFFF

  type u32 = x: nat | x < TWO32
  type u64 = x: nat | x <= MAX64

  datatype Peer = SocketAddr(ip: nat, port: nat)

  // Addition of a release build: it wraps.
  function Plus(n: u32, d: int): u32 {
    (n as int + d) % TWO32
  }

  // Every field but the average, which depends on when it is computed.
  datatype Counters = Counters(
    activeConnections: u32,
    protocol: Protocol,
    activePeers: map<Peer, u32>,
    status: Status,
    connectionTime: nat,
    transmissionTime: nat,
    incomingBytes: u64,
    outgoingBytes: u64,
    totalIncomingBytes: u64,
    totalOutgoingBytes: u64,
    failures: u32)

  datatype MetricData = MetricData(counters: Counters, peakEwma: Ewma)

  datatype MetricOp =
    | AddPeer(peer: Peer)
    | SubPeer(peer: Peer)
    | IncrActiveConnection
    | DecrActiveConnection
    | ChangeStatus(status: Status)
    | ChangeProtocol(protocol: Protocol)
    | Summary(connectionTime: nat, transmissionTime: nat, incoming: u64, outgoing: u64)
    | Reset
    | AddFailures

  // A total keeps its value when an addition would overflow.
  function CheckedAdd(total: u64, n: u64): u64 {
    if total + n <= MAX64 then total + n else total
  }

  function Absorbed(c: Counters, op: MetricOp): Counters {
    match op
    case IncrActiveConnection => c.(activeConnections := Plus(c.activeConnections, 1))
    case DecrActiveConnection => c.(activeConnections := Plus(c.activeConnections, -1))
    case Summary(connectionTime, transmissionTime, incoming, outgoing) =>
      c.(connectionTime := connectionTime, transmissionTime := transmissionTime,
         incomingBytes := incoming, outgoingBytes := outgoing,
         totalIncomingBytes := CheckedAdd(c.totalIncomingBytes, incoming),
         totalOutgoingBytes := CheckedAdd(c.totalOutgoingBytes, outgoing))
    case AddFailures => c.(failures := Plus(c.failures, 1))
    case Reset => c.(failures := 0, activeConnections := 0, activePeers := map[])
    case AddPeer(peer) =>
      c.(activePeers := c.activePeers[peer := if peer in c.activePeers then Plus(c.activePeers[peer], 1) else 1])
    case SubPeer(peer) =>
      if peer !in c.activePeers then c
      else if c.activePeers[peer] == 1 then c.(activePeers := c.activePeers - {peer})
      else c.(activePeers := c.activePeers[peer := Plus(c.activePeers[peer], -1)])
    case ChangeStatus(status) => c.(status := status)
    case ChangeProtocol(protocol) => c.(protocol := protocol)
  }

  // The operation on a copy whose clock reads `now`.
  function AbsorbFirst(d: MetricData, op: MetricOp, w: real -> real, now: real): MetricData {
    MetricData(
      Absorbed(d.counters, op),
      if op.Summary? then Observed(w, d.peakEwma, op.connectionTime as real, now) else d.peakEwma)
  }

  // A stretch of the log, each operation at its time.
  function AbsorbAll(d: MetricData, ops: seq<MetricOp>, w: real -> real, clock: seq<real>): MetricData
    requires |ops| == |clock|
  {
    if ops == [] then d
    else
      var n := |ops| - 1;
      AbsorbFirst(AbsorbAll(d, ops[..n], w, clock[..n]), ops[n], w, clock[n])
  }

  lemma {:induction false} AbsorbAppends(d: MetricData, a: seq<MetricOp>, b: seq<MetricOp>, w: real -> real,
                                         x: seq<real>, y: seq<real>)
    requires |a| == |x| && |b| == |y|
    ensures AbsorbAll(d, a + b, w, x + y) == AbsorbAll(AbsorbAll(d, a, w, x), b, w, y)
  {
    if b == [] {
      assert a + b == a && x + y == x;
    } else {
      var n := |b| - 1;
      AbsorbAppends(d, a, b[..n], w, x, y[..n]);
      AbsorbNext(d, a + b[..n], b[n], w, x + y[..n], y[n]);
      assert a + b == a + b[..n] + [b[n]] && x + y == x + y[..n] + [y[n]];
    }
  }

  lemma {:induction false} AbsorbNext(d: MetricData, ops: seq<MetricOp>, op: MetricOp, w: real -> real,
                                      clock: seq<real>, now: real)
    requires |ops| == |clock|
    ensures AbsorbAll(d, ops + [op], w, clock + [now]) == AbsorbFirst(AbsorbAll(d, ops, w, clock), op, w, now)
  {
    assert (ops + [op])[..|ops|] == ops && (clock + [now])[..|clock|] == clock;
  }

  function Fold(c: Counters, ops: seq<MetricOp>): Counters {
    if ops == [] then c else Absorbed(Fold(c, ops[..|ops| - 1]), ops[|ops| - 1])
  }

  lemma {:induction false} FoldAppends(c: Counters, a: seq<MetricOp>, b: seq<MetricOp>)
    ensures Fold(c, a + b) == Fold(Fold(c, a), b)
  {
    if b == [] {
      assert a + b == a;
    } else {
      assert (a + b)[..|a + b| - 1] == a + b[..|b| - 1];
      FoldAppends(c, a, b[..|b| - 1]);
    }
  }

  // One request to the writer, and the operations it publishes together.
  datatype Call =
    | Opened(peer: Peer)
    | Finished(peer: Peer, connectionTime: nat, transmissionTime: nat, incoming: u64, outgoing: u64)
    | Failed(peer: Peer)
    | SetStatus(status: Status)
    | SetProtocol(protocol: Protocol)
    | Cleared

  function Batch(call: Call): seq<MetricOp> {
    match call
    case Opened(peer) => [IncrActiveConnection, AddPeer(peer)]
    case Finished(peer, connectionTime, transmissionTime, incoming, outgoing) =>
      [DecrActiveConnection, SubPeer(peer), Summary(connectionTime, transmissionTime, incoming, outgoing)]
    case Failed(peer) => [AddFailures, SubPeer(peer), DecrActiveConnection]
    case SetStatus(status) => [ChangeStatus(status)]
    case SetProtocol(protocol) => [ChangeProtocol(protocol)]
    case Cleared => [Reset]
  }

  function Initial(): Counters {
    Counters(0, Quic, map[], Normal, 0, 0, 0, 0, 0, 0, 0)
  }

  // The counters after whole batches.
  function Replay(calls: seq<Call>): Counters {
    if calls == [] then Initial() else Fold(Replay(calls[..|calls| - 1]), Batch(calls[|calls| - 1]))
  }

  // All batches, one after the other.
  function Batches(calls: seq<Call>): seq<MetricOp> {
    if calls == [] then [] else Batches(calls[..|calls| - 1]) + Batch(calls[|calls| - 1])
  }

  lemma {:induction false} BatchesAppend(calls: seq<Call>, call: Call)
    ensures Batches(calls + [call]) == Batches(calls) + Batch(call)
  {
    assert (calls + [call])[..|calls|] == calls;
  }

  // A copy that has absorbed whole batches, each operation when its own clock
  // said, shows their counters.
  lemma {:induction false} AbsorbedCounters(d: MetricData, ops: seq<MetricOp>, w: real -> real, clock: seq<real>)
    requires |ops| == |clock|
    ensures AbsorbAll(d, ops, w, clock).counters == Fold(d.counters, ops)
  {
    if ops != [] {
      AbsorbedCounters(d, ops[..|ops| - 1], w, clock[..|ops| - 1]);
    }
  }

  lemma {:induction false} BatchesReplay(calls: seq<Call>)
    ensures Fold(Initial(), Batches(calls)) == Replay(calls)
  {
    if calls != [] {
      var before := calls[..|calls| - 1];
      BatchesReplay(before);
      FoldAppends(Initial(), Batches(before), Batch(calls[|calls| - 1]));
    }
  }

  // And its average is over the connection times of the transfers that have
  // finished, all of them and no other.
  function FinishedTimes(calls: seq<Call>): seq<real> {
    if calls == [] then []
    else
      var call := calls[|calls| - 1];
      FinishedTimes(calls[..|calls| - 1]) + if call.Finished? then [call.connectionTime as real] else []
  }

  ghost predicate SamplesOf(samples: seq<Sample>, times: seq<real>) {
    |samples| == |times| && forall i :: 0 <= i < |samples| ==> samples[i].x == times[i]
  }

  lemma {:induction false} ObservesNext(w: real -> real, e: Ewma, samples: seq<Sample>, last: Sample)
    ensures ObservedAll(w, e, samples + [last]) == Observed(w, ObservedAll(w, e, samples), last.x, last.now)
  {
    assert (samples + [last])[..|samples|] == samples;
  }

  lemma {:induction false} BatchObserves(d: MetricData, call: Call, w: real -> real, clock: seq<real>)
    requires |Batch(call)| == |clock|
    ensures AbsorbAll(d, Batch(call), w, clock).peakEwma ==
      if call.Finished? then Observed(w, d.peakEwma, call.connectionTime as real, clock[2]) else d.peakEwma
  {
    var ops := Batch(call);
    AbsorbOne(d, ops, w, clock);
  }

  // A batch observes nothing before its last operation.
  lemma {:induction false} AbsorbOne(d: MetricData, ops: seq<MetricOp>, w: real -> real, clock: seq<real>)
    requires |ops| == |clock| && ops != [] && forall i :: 0 <= i < |ops| - 1 ==> !ops[i].Summary?
    ensures AbsorbAll(d, ops, w, clock).peakEwma ==
      AbsorbFirst(d, ops[|ops| - 1], w, clock[|ops| - 1]).peakEwma
  {
    if |ops| > 1 {
      AbsorbOne(d, ops[..|ops| - 1], w, clock[..|ops| - 1]);
    }
  }

  lemma {:induction false} BatchesAverage(d: MetricData, calls: seq<Call>, w: real -> real, clock: seq<real>)
    returns (samples: seq<Sample>)
    requires |Batches(calls)| == |clock|
    ensures AbsorbAll(d, Batches(calls), w, clock).peakEwma == ObservedAll(w, d.peakEwma, samples)
    ensures SamplesOf(samples, FinishedTimes(calls))
  {
    if calls == [] {
      samples := [];
    } else {
      var before, call := calls[..|calls| - 1], calls[|calls| - 1];
      var n := |Batches(before)|;
      var earlier := BatchesAverage(d, before, w, clock[..n]);
      var mid := LastBatch(d, calls, w, clock);
      BatchObserves(mid, call, w, clock[n..]);
      samples := AverageNext(w, d.peakEwma, earlier, calls, if call.Finished? then clock[n..][2] else 0.0);
    }
  }

  // The samples of all calls, given those of all but the last.
  lemma {:induction false} AverageNext(w: real -> real, start: Ewma, earlier: seq<Sample>, calls: seq<Call>, now: real)
    returns (samples: seq<Sample>)
    requires calls != [] && SamplesOf(earlier, FinishedTimes(calls[..|calls| - 1]))
    ensures SamplesOf(samples, FinishedTimes(calls))
    ensures var call, e := calls[|calls| - 1], ObservedAll(w, start, earlier);
      ObservedAll(w, start, samples) ==
        if call.Finished? then Observed(w, e, call.connectionTime as real, now) else e
  {
    var call := calls[|calls| - 1];
    samples := earlier;
    if call.Finished? {
      var last := Sample(call.connectionTime as real, now);
      ObservesNext(w, start, earlier, last);
      samples := earlier + [last];
    }
  }

  lemma {:induction false} LastBatch(d: MetricData, calls: seq<Call>, w: real -> real, clock: seq<real>)
    returns (mid: MetricData)
    requires calls != [] && |Batches(calls)| == |clock|
    ensures var before, call := calls[..|calls| - 1], calls[|calls| - 1];
      var n := |Batches(before)|;
      && n + |Batch(call)| == |clock| && mid == AbsorbAll(d, Batches(before), w, clock[..n])
      && AbsorbAll(d, Batches(calls), w, clock) == AbsorbAll(mid, Batch(call), w, clock[n..])
  {
    var before, call := calls[..|calls| - 1], calls[|calls| - 1];
    var n := |Batches(before)|;
    mid := AbsorbAll(d, Batches(before), w, clock[..n]);
    AbsorbAppends(d, Batches(before), Batch(call), w, clock[..n], clock[n..]);
    assert clock[..n] + clock[n..] == clock;
  }

  // A copy that has absorbed these operations.
  ghost predicate Has(start: MetricData, d: MetricData, ops: seq<MetricOp>, w: real -> real, clock: seq<real>) {
    |clock| == |ops| && d == AbsorbAll(start, ops, w, clock)
  }

  // A log that ends in a batch, after what the back copy lacks, brings that
  // copy up to the batch, which is then what the front copy lacks.
  lemma {:induction false} CatchesUp(start: MetricData, back: MetricData, has: seq<MetricOp>, w: real -> real,
      clock: seq<real>, log: seq<MetricOp>, applied: nat, calls: seq<Call>, call: Call, times: seq<real>)
    requires applied <= |log| == |times| && log[applied..] == Batch(call)
    requires Has(start, back, has, w, clock) && has + log[..applied] == Batches(calls)
    ensures Batches(calls + [call]) == Batches(calls) + Batch(call)
    ensures Has(start, AbsorbAll(back, log, w, times), Batches(calls + [call]), w, clock + times)
  {
    BatchesAppend(calls, call);
    Joined(has, log, applied);
    AbsorbAppends(start, has, log, w, clock, times);
  }

  lemma Joined(has: seq<MetricOp>, log: seq<MetricOp>, applied: nat)
    requires applied <= |log|
    ensures has + log == has + log[..applied] + log[applied..]
  {
    assert log == log[..applied] + log[applied..];
  }

  // The writer. Readers see `front`; the operations in `oplog[..applied]` are
  // in it but not yet in `back`, and those after are in neither.
  class MetricWriter {
    const w: real -> real
    var front: MetricData
    var back: MetricData
    var oplog: seq<MetricOp>
    var applied: nat
    ghost const start: MetricData
    ghost var calls: seq<Call>
    ghost var frontOps: seq<MetricOp>   // what was applied to the copy
    ghost var frontClock: seq<real>     // and when
    ghost var backOps: seq<MetricOp>
    ghost var backClock: seq<real>

    // The front copy is of whole batches, and the back copy of those without
    // the log that has been applied to the front already.
    ghost predicate Valid()
      reads this
    {
      && applied <= |oplog|
      && Has(start, front, frontOps, w, frontClock)
      && Has(start, back, backOps, w, backClock)
      && backOps + oplog[..applied] == frontOps == Batches(calls)
    }

    // What is waiting to be published.
    ghost function Waiting(): seq<MetricOp>
      reads this
      requires applied <= |oplog|
    {
      oplog[applied..]
    }

    ghost predicate Settled()
      reads this
    {
      Valid() && Waiting() == []
    }

    constructor (w: real -> real, now: real)
      ensures Settled() && calls == [] && this.w == w
      ensures start == MetricData(Initial(), Ewma(50000000.0, now))
    {
      this.w := w;
      front := MetricData(Initial(), Ewma(50000000.0, now));
      back := MetricData(Initial(), Ewma(50000000.0, now));
      oplog, applied := [], 0;
      start := MetricData(Initial(), Ewma(50000000.0, now));
      calls, frontOps, frontClock, backOps, backClock := [], [], [], [], [];
    }

    method Append(op: MetricOp)
      requires Valid()
      modifies this`oplog
      ensures Valid() && Waiting() == old(Waiting()) + [op]
    {
      oplog := oplog + [op];
      assert oplog[..applied] == old(oplog)[..applied];
    }

    // Bring the back copy up to date, and swap the copies.
    method Publish(ghost call: Call, clock: nat -> real)
      requires Valid() && Waiting() == Batch(call)
      modifies this
      ensures Settled() && calls == old(calls) + [call]
    {
      ghost var clocks;
      var next;
      next, clocks := CatchUp(call, clock);
      var rest := oplog[applied..];
      ghost var ops := frontOps + Batch(call);
      assert rest[..|rest|] == rest && rest[|rest|..] == [] && frontOps + rest == ops;
      front, back := next, front;
      frontOps, frontClock, backOps, backClock := ops, clocks, frontOps, frontClock;
      oplog, applied := rest, |rest|;
      calls := calls + [call];
      assert Has(start, front, frontOps, w, frontClock) && Has(start, back, backOps, w, backClock);
    }

    // The back copy with the whole log applied to it.
    method CatchUp(ghost call: Call, clock: nat -> real) returns (next: MetricData, ghost clocks: seq<real>)
      requires Valid() && Waiting() == Batch(call)
      ensures frontOps + Batch(call) == Batches(calls + [call])
      ensures Has(start, next, frontOps + Batch(call), w, clocks)
    {
      ghost var times;
      next, times := Replayed(clock);
      CatchesUp(start, back, backOps, w, backClock, oplog, applied, calls, call, times);
      clocks := backClock + times;
    }

    method Replayed(clock: nat -> real) returns (next: MetricData, ghost times: seq<real>)
      ensures |times| == |oplog| && next == AbsorbAll(back, oplog, w, times)
    {
      next, times := back, [];
      var i := 0;
      while i < |oplog|
        invariant i <= |oplog| && |times| == |oplog[..i]|
        invariant next == AbsorbAll(back, oplog[..i], w, times)
      {
        assert oplog[..i + 1][..i] == oplog[..i] && (times + [clock(i)])[..i] == times;
        next := AbsorbFirst(next, oplog[i], w, clock(i));
        times := times + [clock(i)];
        i := i + 1;
      }
      assert oplog[..i] == oplog;
    }

    // What a reader sees: the counters of whole batches, and the average over
    // the connection times of the transfers that have finished.
    lemma Shows() returns (samples: seq<Sample>)
      requires Valid() && start.counters == Initial()
      ensures front.counters == Replay(calls)
      ensures front.peakEwma == ObservedAll(w, start.peakEwma, samples) && SamplesOf(samples, FinishedTimes(calls))
    {
      AbsorbedCounters(start, Batches(calls), w, frontClock);
      BatchesReplay(calls);
      samples := BatchesAverage(start, calls, w, frontClock);
    }

    // What the balancer reads: the cost of the average for the connections that
    // are active.
    method GetPeakEwma(now: real) returns (cost: real)
      requires Valid() && start.counters == Initial()
      ensures cost == Cost(w, front.peakEwma, Replay(calls).activeConnections, now)
    {
      ghost var _ := Shows();
      cost := Cost(w, front.peakEwma, front.counters.activeConnections, now);
    }

    method IncrConnection(peer: Peer, clock: nat -> real)
      requires Settled()
      modifies this
      ensures Settled() && calls == old(calls) + [Opened(peer)]
    {
      Append(IncrActiveConnection);
      Append(AddPeer(peer));
      Publish(Opened(peer), clock);
    }

    method SetProtocol(protocol: Protocol, clock: nat -> real)
      requires Settled()
      modifies this
      ensures Settled() && calls == old(calls) + [Call.SetProtocol(protocol)]
    {
      Append(ChangeProtocol(protocol));
      Publish(Call.SetProtocol(protocol), clock);
    }

    method SetStatus(status: Status, clock: nat -> real)
      requires Settled()
      modifies this
      ensures Settled() && calls == old(calls) + [Call.SetStatus(status)]
    {
      Append(ChangeStatus(status));
      Publish(Call.SetStatus(status), clock);
    }

    method Clear(clock: nat -> real)
      requires Settled()
      modifies this
      ensures Settled() && calls == old(calls) + [Cleared]
    {
      Append(Reset);
      Publish(Cleared, clock);
    }

    method Summarize(connectionTime: nat, transmissionTime: nat, incoming: u64, outgoing: u64, peer: Peer,
      clock: nat -> real)
      requires Settled()
      modifies this
      ensures Settled() && calls == old(calls) + [Finished(peer, connectionTime, transmissionTime, incoming, outgoing)]
    {
      Append(DecrActiveConnection);
      Append(SubPeer(peer));
      Append(Summary(connectionTime, transmissionTime, incoming, outgoing));
      Publish(Finished(peer, connectionTime, transmissionTime, incoming, outgoing), clock);
    }

    method AddFailure(peer: Peer, clock: nat -> real)
      requires Settled()
      modifies this
      ensures Settled() && calls == old(calls) + [Failed(peer)]
    {
      Append(AddFailures);
      Append(SubPeer(peer));
      Append(DecrActiveConnection);
      Publish(Failed(peer), clock);
    }
  }
}
