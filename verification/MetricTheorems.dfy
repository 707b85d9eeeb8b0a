// What every snapshot of the counters satisfies.
module MetricTheorems {
  import opened Backends
  import opened PeakEwma
  import opened Metric

  lemma {:induction false} ReplayNext(calls: seq<Call>, call: Call)
    ensures Replay(calls + [call]) == Fold(Replay(calls), Batch(call))
  {
    assert (calls + [call])[..|calls|] == calls;
  }

  // The operations of a batch, one after the other.
  function AfterBatch(c: Counters, call: Call): Counters {
    match call
    case Opened(peer) => Absorbed(Absorbed(c, IncrActiveConnection), AddPeer(peer))
    case Finished(peer, ct, tt, incoming, outgoing) =>
      Absorbed(Absorbed(Absorbed(c, DecrActiveConnection), SubPeer(peer)), Summary(ct, tt, incoming, outgoing))
    case Failed(peer) => Absorbed(Absorbed(Absorbed(c, AddFailures), SubPeer(peer)), DecrActiveConnection)
    case SetStatus(status) => Absorbed(c, ChangeStatus(status))
    case SetProtocol(protocol) => Absorbed(c, ChangeProtocol(protocol))
    case Cleared => Absorbed(c, Reset)
  }

  lemma {:induction false} FoldOne(c: Counters, a: MetricOp)
    ensures Fold(c, [a]) == Absorbed(c, a)
  {
    assert [a][..0] == [];
  }

  lemma {:induction false} FoldTwo(c: Counters, a: MetricOp, b: MetricOp)
    ensures Fold(c, [a, b]) == Absorbed(Absorbed(c, a), b)
  {
    FoldOne(c, a);
    assert [a, b][..1] == [a];
  }

  lemma {:induction false} FoldBatch(c: Counters, call: Call)
    ensures Fold(c, Batch(call)) == AfterBatch(c, call)
  {
    var ops := Batch(call);
    if |ops| == 1 {
      FoldOne(c, ops[0]);
    } else if |ops| == 2 {
      FoldTwo(c, ops[0], ops[1]);
    } else {
      FoldTwo(c, ops[0], ops[1]);
      assert ops[..2] == [ops[0], ops[1]];
    }
  }

  // ----- Conservation -----

  // The sum of the peers' counters.
  ghost function Total(peers: map<Peer, u32>): nat
    decreases |peers|
  {
    if peers == map[] then 0
    else
      var p :| p in peers;
      assert p !in peers - {p};
      assert |peers.Keys| == |(peers - {p}).Keys + {p}|;
      peers[p] + Total(peers - {p})
  }

  predicate Closes(call: Call) {
    call.Finished? || call.Failed?
  }

  function OpenAfter(open: multiset<Peer>, call: Call): multiset<Peer> {
    if call.Opened? then open + multiset{call.peer}
    else if Closes(call) then open - multiset{call.peer}
    else if call.Cleared? then multiset{}
    else open
  }

  // The connections that are open after the calls.
  function OpenPeers(calls: seq<Call>): multiset<Peer> {
    if calls == [] then multiset{} else OpenAfter(OpenPeers(calls[..|calls| - 1]), calls[|calls| - 1])
  }

  // Each close follows its own open since the last reset, and fewer than 2^32
  // connections are open at once.
  predicate WellFormed(calls: seq<Call>) {
    calls == [] ||
    var before, call := calls[..|calls| - 1], calls[|calls| - 1];
    && WellFormed(before)
    && (Closes(call) ==> call.peer in OpenPeers(before))
    && |OpenPeers(calls)| < TWO32
  }

  ghost predicate Matches(c: Counters, open: multiset<Peer>) {
    c.activeConnections == |open| && Counts(c.activePeers, open)
  }

  ghost predicate Counts(peers: map<Peer, u32>, open: multiset<Peer>) {
    && (forall p :: p in peers <==> p in open)
    && (forall p :: p in peers ==> peers[p] == open[p])
  }

  lemma CountAtMostSize(open: multiset<Peer>, p: Peer)
    ensures open[p] <= |open|
  {
    assert open == open[p := 0] + multiset{}[p := open[p]];
  }

  lemma AddMatches(c: Counters, open: multiset<Peer>, p: Peer)
    requires Matches(c, open) && |open| + 1 < TWO32
    ensures Matches(Absorbed(Absorbed(c, IncrActiveConnection), AddPeer(p)), open + multiset{p})
  {
    CountAtMostSize(open, p);
  }

  lemma SubMatches(c: Counters, open: multiset<Peer>, p: Peer)
    requires Matches(c, open) && p in open && |open| < TWO32
    ensures Matches(Absorbed(Absorbed(c, DecrActiveConnection), SubPeer(p)), open - multiset{p})
    ensures Matches(Absorbed(Absorbed(c, SubPeer(p)), DecrActiveConnection), open - multiset{p})
  {
    CountAtMostSize(open, p);
  }

  lemma BatchMatches(c: Counters, open: multiset<Peer>, call: Call)
    requires Matches(c, open) && |open| < TWO32 && |OpenAfter(open, call)| < TWO32
    requires Closes(call) ==> call.peer in open
    ensures Matches(AfterBatch(c, call), OpenAfter(open, call))
  {
    if call.Opened? {
      AddMatches(c, open, call.peer);
    } else if Closes(call) {
      SubMatches(if call.Failed? then Absorbed(c, AddFailures) else c, open, call.peer);
    }
  }

  lemma {:induction false} ReplayMatches(calls: seq<Call>)
    requires WellFormed(calls)
    ensures Matches(Replay(calls), OpenPeers(calls)) && |OpenPeers(calls)| < TWO32
  {
    if calls != [] {
      var before, call := calls[..|calls| - 1], calls[|calls| - 1];
      ReplayMatches(before);
      BatchMatches(Replay(before), OpenPeers(before), call);
      FoldBatch(Replay(before), call);
    }
  }

  lemma {:induction false} TotalIsSize(peers: map<Peer, u32>, open: multiset<Peer>)
    requires Counts(peers, open)
    ensures Total(peers) == |open|
    decreases |peers|
  {
    if peers == map[] {
      assert open == multiset{};
    } else {
      var p :| p in peers && Total(peers) == peers[p] + Total(peers - {p});
      assert |peers.Keys| == |(peers - {p}).Keys + {p}|;
      TotalIsSize(peers - {p}, open[p := 0]);
    }
  }

  // In every snapshot of such a run the peers' counters add up to the active
  // connections, each counts its own open connections, and none is zero.
  lemma {:induction false} SnapshotsConserve(calls: seq<Call>)
    requires WellFormed(calls)
    ensures var c := Replay(calls);
      && Total(c.activePeers) == c.activeConnections == |OpenPeers(calls)|
      && (forall p :: p in c.activePeers <==> p in OpenPeers(calls))
      && (forall p :: p in c.activePeers ==> 0 < c.activePeers[p] == OpenPeers(calls)[p])
  {
    ReplayMatches(calls);
    TotalIsSize(Replay(calls).activePeers, OpenPeers(calls));
  }

  // A snapshot whose peers' counters add up to the active connections, none
  // of them zero.
  ghost predicate Conserved(c: Counters) {
    Total(c.activePeers) == c.activeConnections && forall p :: p in c.activePeers ==> c.activePeers[p] > 0
  }

  lemma MatchesConserved(c: Counters, open: multiset<Peer>)
    requires Matches(c, open)
    ensures Conserved(c)
  {
    TotalIsSize(c.activePeers, open);
  }

  // A close without its open loses a connection that no peer counts.
  lemma StrayCloseBreaks(c: Counters, open: multiset<Peer>, call: Call)
    requires Matches(c, open) && |open| < TWO32 && Closes(call) && call.peer !in open
    ensures !Conserved(AfterBatch(c, call))
  {
    TotalIsSize(c.activePeers, open);
    assert AfterBatch(c, call).activePeers == c.activePeers;
    assert AfterBatch(c, call).activeConnections == (|open| - 1) % TWO32 != |open|;
  }

  // The open that makes 2^32 wraps the counter to 0, but not every peer's.
  lemma OverflowBreaks(c: Counters, open: multiset<Peer>, p: Peer)
    requires Matches(c, open) && |open| + 1 == TWO32
    ensures !Conserved(AfterBatch(c, Opened(p)))
  {
    var c' := AfterBatch(c, Opened(p));
    CountAtMostSize(open, p);
    assert c'.activeConnections == 0;
    if open[p] + 1 < TWO32 {
      TotalIsSize(c'.activePeers, open + multiset{p});
    } else {
      assert c'.activePeers[p] == 0;
    }
  }

  lemma {:induction false} PrefixConserved(calls: seq<Call>, i: nat)
    requires WellFormed(calls) && i <= |calls|
    ensures Conserved(Replay(calls[..i]))
  {
    if i == |calls| {
      assert calls[..i] == calls;
      ReplayMatches(calls);
      MatchesConserved(Replay(calls), OpenPeers(calls));
    } else {
      assert calls[..|calls| - 1][..i] == calls[..i];
      PrefixConserved(calls[..|calls| - 1], i);
    }
  }

  lemma {:induction false} ConservedWellFormed(calls: seq<Call>)
    requires forall i: nat :: i <= |calls| ==> Conserved(Replay(calls[..i]))
    ensures WellFormed(calls)
  {
    if calls != [] {
      var before, call := calls[..|calls| - 1], calls[|calls| - 1];
      forall i: nat | i <= |before|
        ensures Conserved(Replay(before[..i]))
      {
        assert before[..i] == calls[..i];
      }
      ConservedWellFormed(before);
      ReplayMatches(before);
      FoldBatch(Replay(before), call);
      assert calls[..|calls|] == calls && Conserved(AfterBatch(Replay(before), call));
      var open := OpenPeers(before);
      if Closes(call) && call.peer !in open {
        StrayCloseBreaks(Replay(before), open, call);
      } else if call.Opened? && |open| + 1 == TWO32 {
        OverflowBreaks(Replay(before), open, call.peer);
      }
    }
  }

  // Every snapshot of a run conserves connections exactly when each close
  // follows its own open since the last reset and fewer than 2^32 connections
  // are ever open at once.
  lemma {:induction false} ConservedIffWellFormed(calls: seq<Call>)
    ensures WellFormed(calls) <==> forall i: nat :: i <= |calls| ==> Conserved(Replay(calls[..i]))
  {
    if WellFormed(calls) {
      forall i: nat | i <= |calls|
        ensures Conserved(Replay(calls[..i]))
      {
        PrefixConserved(calls, i);
      }
    } else if forall i: nat :: i <= |calls| ==> Conserved(Replay(calls[..i])) {
      ConservedWellFormed(calls);
    }
  }

  // No reader sees the middle of a batch, where the sum is broken.
  lemma {:induction false} MidBatchUnbalanced(calls: seq<Call>)
    requires WellFormed(calls) && |OpenPeers(calls)| + 1 < TWO32
    ensures var c := Absorbed(Replay(calls), IncrActiveConnection);
      Total(c.activePeers) != c.activeConnections
  {
    SnapshotsConserve(calls);
  }

  // An open that lands after its own close leaves a peer behind; so the
  // order is needed.
  lemma LateOpenLeaks(p: Peer)
    ensures var c := Replay([Failed(p), Opened(p)]);
      c.activeConnections == 0 && c.activePeers == map[p := 1]
  {
    FoldBatch(Initial(), Failed(p));
    ReplayNext([], Failed(p));
    ReplayNext([Failed(p)], Opened(p));
    FoldBatch(Replay([Failed(p)]), Opened(p));
    assert [] + [Failed(p)] == [Failed(p)];
    assert [Failed(p)] + [Opened(p)] == [Failed(p), Opened(p)];
  }

  // ----- The connection counter -----

  function NetAfter(net: int, call: Call): int {
    if call.Opened? then net + 1 else if Closes(call) then net - 1 else if call.Cleared? then 0 else net
  }

  // Opens minus closes since the last reset.
  function Net(calls: seq<Call>): int {
    if calls == [] then 0 else NetAfter(Net(calls[..|calls| - 1]), calls[|calls| - 1])
  }

  lemma BatchCongruent(c: Counters, call: Call, net: int)
    requires c.activeConnections == net % TWO32
    ensures AfterBatch(c, call).activeConnections == NetAfter(net, call) % TWO32
  {
  }

  // For every order of calls the counter is opens minus closes modulo 2^32.
  lemma {:induction false} ActiveIsNet(calls: seq<Call>)
    ensures Replay(calls).activeConnections == Net(calls) % TWO32
  {
    if calls != [] {
      var before, call := calls[..|calls| - 1], calls[|calls| - 1];
      ActiveIsNet(before);
      BatchCongruent(Replay(before), call, Net(before));
      FoldBatch(Replay(before), call);
    }
  }

  // ----- Status, protocol and failures -----

  // The status set last.
  function LastStatus(calls: seq<Call>): Status {
    if calls == [] then Normal
    else if calls[|calls| - 1].SetStatus? then calls[|calls| - 1].status
    else LastStatus(calls[..|calls| - 1])
  }

  // Failures since the last reset.
  function FailureCount(calls: seq<Call>): nat {
    if calls == [] || calls[|calls| - 1].Cleared? then 0
    else FailureCount(calls[..|calls| - 1]) + if calls[|calls| - 1].Failed? then 1 else 0
  }

  lemma {:induction false} BatchStatus(c: Counters, call: Call, failures: nat)
    requires c.failures == failures % TWO32
    ensures Fold(c, Batch(call)).status == if call.SetStatus? then call.status else c.status
    ensures Fold(c, Batch(call)).failures ==
      if call.Cleared? then 0 else if call.Failed? then (failures + 1) % TWO32 else c.failures
  {
    FoldBatch(c, call);
  }

  // A reader sees the status set last, which nothing else changes, and the
  // failures since the last reset.
  lemma {:induction false} StatusIsLastSet(calls: seq<Call>)
    ensures Replay(calls).status == LastStatus(calls)
    ensures Replay(calls).failures == FailureCount(calls) % TWO32
  {
    if calls != [] {
      var before := calls[..|calls| - 1];
      StatusIsLastSet(before);
      BatchStatus(Replay(before), calls[|calls| - 1], FailureCount(before));
    }
  }

  // The protocol set last.
  function LastProtocol(calls: seq<Call>): Protocol {
    if calls == [] then Quic
    else if calls[|calls| - 1].SetProtocol? then calls[|calls| - 1].protocol
    else LastProtocol(calls[..|calls| - 1])
  }

  // The transfer that finished last; before any, one that took and moved nothing.
  predicate ShowsLastTransfer(c: Counters, calls: seq<Call>) {
    if calls == [] then
      c.connectionTime == c.transmissionTime == c.incomingBytes == c.outgoingBytes == 0
    else
      var call := calls[|calls| - 1];
      if call.Finished? then
        c.connectionTime == call.connectionTime && c.transmissionTime == call.transmissionTime &&
        c.incomingBytes == call.incoming && c.outgoingBytes == call.outgoing
      else ShowsLastTransfer(c, calls[..|calls| - 1])
  }

  lemma {:induction false} SameTransfer(c: Counters, c': Counters, calls: seq<Call>)
    requires ShowsLastTransfer(c, calls)
    requires c'.connectionTime == c.connectionTime && c'.transmissionTime == c.transmissionTime
    requires c'.incomingBytes == c.incomingBytes && c'.outgoingBytes == c.outgoingBytes
    ensures ShowsLastTransfer(c', calls)
  {
    if calls != [] && !calls[|calls| - 1].Finished? {
      SameTransfer(c, c', calls[..|calls| - 1]);
    }
  }

  lemma {:induction false} BatchTransfer(c: Counters, call: Call)
    ensures var c' := Fold(c, Batch(call));
      && c'.protocol == (if call.SetProtocol? then call.protocol else c.protocol)
      && c'.connectionTime == (if call.Finished? then call.connectionTime else c.connectionTime)
      && c'.transmissionTime == (if call.Finished? then call.transmissionTime else c.transmissionTime)
      && c'.incomingBytes == (if call.Finished? then call.incoming else c.incomingBytes)
      && c'.outgoingBytes == (if call.Finished? then call.outgoing else c.outgoingBytes)
  {
    FoldBatch(c, call);
  }

  // A reader sees the protocol set last, and the times and bytes of the
  // transfer that finished last, even after a reset.
  lemma {:induction false} TransferIsLastFinished(calls: seq<Call>)
    ensures Replay(calls).protocol == LastProtocol(calls)
    ensures ShowsLastTransfer(Replay(calls), calls)
  {
    if calls != [] {
      var before, call := calls[..|calls| - 1], calls[|calls| - 1];
      TransferIsLastFinished(before);
      BatchTransfer(Replay(before), call);
      if !call.Finished? {
        SameTransfer(Replay(before), Replay(calls), before);
      }
    }
  }

  // ----- Byte totals -----

  // The total and a transfer's bytes, of what was received or of what was sent.
  function TotalOf(c: Counters, received: bool): u64 {
    if received then c.totalIncomingBytes else c.totalOutgoingBytes
  }

  function BytesOf(call: Call, received: bool): u64 {
    if !call.Finished? then 0 else if received then call.incoming else call.outgoing
  }

  function TrueSum(calls: seq<Call>, received: bool): nat {
    if calls == [] then 0
    else TrueSum(calls[..|calls| - 1], received) + BytesOf(calls[|calls| - 1], received)
  }

  // The largest single transfer.
  function Largest(calls: seq<Call>, received: bool): nat {
    if calls == [] then 0
    else
      var most, n := Largest(calls[..|calls| - 1], received), BytesOf(calls[|calls| - 1], received);
      if n > most then n else most
  }

  lemma {:induction false} BatchTotal(c: Counters, call: Call, received: bool)
    ensures TotalOf(Fold(c, Batch(call)), received) == CheckedAdd(TotalOf(c, received), BytesOf(call, received))
  {
    FoldBatch(c, call);
  }

  // The bytes of these transfers.
  function BytesAt(calls: seq<Call>, counted: set<nat>, received: bool): nat {
    if calls == [] then 0
    else
      var n := |calls| - 1;
      BytesAt(calls[..n], counted, received) + if n in counted then BytesOf(calls[n], received) else 0
  }

  lemma {:induction false} BytesAtMore(calls: seq<Call>, counted: set<nat>, more: set<nat>, received: bool)
    requires forall i: nat :: i < |calls| ==> (i in counted <==> i in more)
    ensures BytesAt(calls, counted, received) == BytesAt(calls, more, received)
  {
    if calls != [] {
      BytesAtMore(calls[..|calls| - 1], counted, more, received);
    }
  }

  // Transfer i would have made the total overflow when it finished.
  ghost predicate TooMuch(calls: seq<Call>, i: nat, received: bool)
    requires i < |calls|
  {
    TotalOf(Replay(calls[..i]), received) + BytesOf(calls[i], received) > MAX64
  }

  // A total counts each transfer whole or not at all, and leaves out exactly
  // those that would have made it overflow.
  lemma {:induction false} TotalCountsWhole(calls: seq<Call>, received: bool) returns (counted: set<nat>)
    ensures TotalOf(Replay(calls), received) == BytesAt(calls, counted, received)
    ensures forall i: nat :: i < |calls| ==> (i in counted <==> !TooMuch(calls, i, received))
  {
    counted := set i: nat | i < |calls| && !TooMuch(calls, i, received);
    if calls != [] {
      var n := |calls| - 1;
      var before := TotalCountsWhole(calls[..n], received);
      TotalNext(calls, received);
      forall i: nat | i < n
        ensures i in before <==> i in counted
      {
        TooMuchStays(calls, i, received);
      }
      BytesAtMore(calls[..n], before, counted, received);
    }
  }

  lemma {:induction false} TotalNext(calls: seq<Call>, received: bool)
    requires calls != []
    ensures var n := |calls| - 1;
      TotalOf(Replay(calls), received) == CheckedAdd(TotalOf(Replay(calls[..n]), received), BytesOf(calls[n], received))
  {
    BatchTotal(Replay(calls[..|calls| - 1]), calls[|calls| - 1], received);
  }

  lemma {:induction false} TooMuchStays(calls: seq<Call>, i: nat, received: bool)
    requires i < |calls| - 1
    ensures TooMuch(calls[..|calls| - 1], i, received) <==> TooMuch(calls, i, received)
  {
    assert calls[..|calls| - 1][..i] == calls[..i];
  }

  // Totals never fall, whatever comes next, resets included.
  lemma {:induction false} TotalNeverFalls(calls: seq<Call>, call: Call, received: bool)
    ensures TotalOf(Replay(calls), received) <= TotalOf(Replay(calls + [call]), received) <= MAX64
  {
    ReplayNext(calls, call);
    BatchTotal(Replay(calls), call, received);
  }

  // A total is the true sum exactly when that fits, and otherwise within the
  // largest transfer of the maximum.
  lemma {:induction false} TotalIsTrueSum(calls: seq<Call>, received: bool)
    ensures TotalOf(Replay(calls), received) == TrueSum(calls, received) <==> TrueSum(calls, received) <= MAX64
    ensures TrueSum(calls, received) > MAX64 ==> MAX64 - TotalOf(Replay(calls), received) < Largest(calls, received)
  {
    if calls != [] {
      var before, call := calls[..|calls| - 1], calls[|calls| - 1];
      TotalIsTrueSum(before, received);
      BatchTotal(Replay(before), call, received);
    }
  }

  // ----- The average -----

  lemma {:induction false} LastTimeShown(calls: seq<Call>)
    ensures var times := FinishedTimes(calls);
      Replay(calls).connectionTime as real == if times == [] then 0.0 else times[|times| - 1]
  {
    if calls != [] {
      var before, call := calls[..|calls| - 1], calls[|calls| - 1];
      LastTimeShown(before);
      BatchTransfer(Replay(before), call);
    }
  }

  // The average that a reader sees is never below the connection time that it
  // sees, nor above the first estimate and all connection times.
  lemma {:induction false} AverageCoversShown(w: real -> real, start: Ewma, calls: seq<Call>, samples: seq<Sample>,
                                              top: real)
    requires DecayLaw(w) && SamplesOf(samples, FinishedTimes(calls))
    requires start.rtt <= top && forall i :: 0 <= i < |samples| ==> samples[i].x <= top
    ensures ObservedAll(w, start, samples).rtt <= top
    ensures samples != [] ==> Replay(calls).connectionTime as real <= ObservedAll(w, start, samples).rtt
  {
    LastTimeShown(calls);
    RunBetween(w, start, samples, top);
  }

  // In such runs the cost that the balancer reads is the decayed average for
  // each connection that is open, and one more.
  lemma {:induction false} CostCountsOpen(w: real -> real, average: Ewma, calls: seq<Call>, open: nat, now: real)
    requires DecayLaw(w) && average.rtt > 0.0 && WellFormed(calls) && open == |OpenPeers(calls)|
    ensures open != 0xFFFF_FFFF <==>
      Cost(w, average, Replay(calls).activeConnections, now) ==
        (open as real + 1.0) * Observed(w, average, 0.0, now).rtt
  {
    ReplayMatches(calls);
    CostIsPerConnection(w, average, open, now);
  }
}
