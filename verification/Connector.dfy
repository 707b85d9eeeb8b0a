// The multiplexed client of one backend (client/src/connector.rs).
module Connector {
  import opened Wrappers

  datatype ClientState = Poisoned | NotConnected | Connected

  // What an observer of the client sees, in order.
  datatype Obs =
    | Rejected             // a call found the client poisoned
    | SawFinished          // a call found the connection finished
    | SawAlive             // a call found the connection unfinished
    | Started              // a stream future was built on the connection
    | Dialed(ok: bool)     // a dial ended
    | DialDropped          // the call was dropped while it was dialing
    | WasReset

  function Next(cs: ClientState, o: Obs): ClientState {
    match o
    case Dialed(ok) => if ok then Connected else Poisoned
    case SawFinished => NotConnected
    case WasReset => NotConnected
    case _ => cs
  }

  // When an observation can follow a history that ends in state `cs`.
  predicate CanFollow(cs: ClientState, trace: seq<Obs>, o: Obs) {
    match o
    case Rejected => cs.Poisoned?
    case SawFinished => cs.Connected?
    case SawAlive => cs.Connected?
    case Started => cs.Connected? && |trace| > 0 && trace[|trace| - 1] == SawAlive
    case Dialed(_) => cs.NotConnected?
    case DialDropped => cs.NotConnected?
    case WasReset => true
  }

  // The client state that a history leads to, if each of its observations can
  // follow the ones before it.
  function Replay(trace: seq<Obs>): Option<ClientState> {
    if trace == [] then Some(NotConnected)
    else
      var before, o := trace[..|trace| - 1], trace[|trace| - 1];
      match Replay(before)
      case None => None
      case Some(cs) => if CanFollow(cs, before, o) then Some(Next(cs, o)) else None
  }

  predicate Legal(trace: seq<Obs>) {
    Replay(trace).Some?
  }

  lemma {:induction false} LegalAt(trace: seq<Obs>, i: nat)
    requires Legal(trace) && i <= |trace|
    ensures Legal(trace[..i])
    ensures i < |trace| ==> CanFollow(Replay(trace[..i]).value, trace[..i], trace[i])
  {
    if i == |trace| {
      assert trace[..i] == trace;
    } else {
      LegalAt(trace[..|trace| - 1], i);
      assert trace[..|trace| - 1][..i] == trace[..i];
    }
  }

  predicate IsDial(o: Obs) {
    o.Dialed? || o.DialDropped?
  }

  function Dials(trace: seq<Obs>): nat {
    if trace == [] then 0
    else Dials(trace[..|trace| - 1]) + if IsDial(trace[|trace| - 1]) then 1 else 0
  }

  function Finished(trace: seq<Obs>): nat {
    if trace == [] then 0
    else Finished(trace[..|trace| - 1]) + if trace[|trace| - 1] == SawFinished then 1 else 0
  }

  // What the network answers on one pass of the loop.
  datatype DialResult = DialOk | DialErr | DialCancelled
  datatype Network = Network(finished: bool, dial: DialResult)

  // Observations of passes that did not end the call, as `net` calls for them.
  predicate Passed(call: seq<Obs>, net: nat -> Network) {
    forall i: nat | i < |call| ::
      (call[i] == SawFinished && net(i).finished) || (call[i] == Dialed(true) && net(i).dial == DialOk)
  }

  lemma PassedNext(call: seq<Obs>, net: nat -> Network, o: Obs)
    requires Passed(call, net)
    requires (o == SawFinished && net(|call|).finished) || (o == Dialed(true) && net(|call|).dial == DialOk)
    ensures Passed(call + [o], net)
  {
  }

  // The observations of the pass that ended a call with answer `res`.
  predicate Ended(res: StreamResult, last: seq<Obs>, net: Network) {
    match res
    case Stream => last == [SawAlive, Started] && !net.finished
    case Refused => last == [Rejected]
    case DialFailed => last == [Dialed(false)] && net.dial == DialErr
    case Cancelled => last == [DialDropped] && net.dial == DialCancelled
  }

  // Between two connections found finished, a call dials at most once.
  lemma {:induction false} DialBudget(past: seq<Obs>, call: seq<Obs>, net: nat -> Network)
    requires Legal(past + call) && Passed(call, net)
    ensures Dials(call) <= Finished(call) + if Replay(past + call) == Some(NotConnected) then 0 else 1
  {
    if call == [] {
    } else {
      var before := call[..|call| - 1];
      assert (past + call)[..|past + call| - 1] == past + before;
      DialBudget(past, before, net);
    }
  }

  datatype StreamResult = Stream | Refused | DialFailed | Cancelled

  class Client {
    var inner: ClientState
    ghost var trace: seq<Obs>

    ghost predicate Valid()
      reads this
    {
      Replay(trace) == Some(inner)
    }

    constructor ()
      ensures Valid() && trace == [] && inner == NotConnected
    {
      inner := NotConnected;
      trace := [];
    }

    // Record `o`, the next observation of a call that began after `past`.
    ghost method Note(cs: ClientState, past: seq<Obs>, call: seq<Obs>, o: Obs) returns (longer: seq<Obs>)
      requires Replay(trace) == Some(cs) && trace == past + call
      requires CanFollow(cs, trace, o)
      modifies this`trace
      ensures longer == call + [o] && trace == past + longer
      ensures Replay(trace) == Some(Next(cs, o))
    {
      longer := call + [o];
      assert (trace + [o])[..|trace|] == trace;
      trace := trace + [o];
    }

    method ResetClient()
      requires Valid()
      modifies this
      ensures Valid() && inner == NotConnected
      ensures trace == old(trace) + [WasReset]
    {
      ghost var _ := Note(inner, trace, [], WasReset);
      match inner {
        case Connected => // the connection task is aborted
        case NotConnected => return;
        case Poisoned =>
      }
      inner := NotConnected;
    }

    // `net(k)` is the network's answer on pass k; from pass `calm` on no
    // connection is found dead on arrival.
    method NewStreamFut(net: nat -> Network, ghost calm: nat)
      returns (res: StreamResult, ghost passed: seq<Obs>, ghost last: seq<Obs>)
      requires Valid()
      requires forall k: nat | calm <= k :: !net(k).finished
      modifies this
      ensures Valid() && trace == old(trace) + passed + last
      ensures Passed(passed, net) && Ended(res, last, net(|passed|))
      ensures inner == match res
        case Stream => Connected
        case Refused => Poisoned
        case DialFailed => Poisoned
        case Cancelled => NotConnected
      ensures res == Refused <==> old(inner) == Poisoned
    {
      var k: nat := 0;
      ghost var past := trace;
      passed, last := [], [];
      while true
        invariant Valid() && trace == past + passed
        invariant |passed| == k && Passed(passed, net)
        invariant inner == Poisoned ==> k == 0
        invariant if k == 0 then inner == old(inner) else old(inner) != Poisoned
        invariant k <= calm + 1 && (k == calm + 1 ==> inner == Connected)
        decreases calm + 1 - k
      {
        ghost var cs := inner;
        match inner {
          case Poisoned =>
            last := Note(cs, past + passed, last, Rejected);
            res := Refused;
            break;
          case Connected =>
            if net(k).finished {
              inner := NotConnected;
              PassedNext(passed, net, SawFinished);
              passed := Note(cs, past, passed, SawFinished);
            } else {
              last := Note(cs, past + passed, last, SawAlive);
              last := Note(cs, past + passed, last, Started);
              res := Stream;
              break;
            }
          case NotConnected =>
            match net(k).dial {
              case DialErr =>
                inner := Poisoned;
                last := Note(cs, past + passed, last, Dialed(false));
                res := DialFailed;
                break;
              case DialOk =>
                inner := Connected;
                PassedNext(passed, net, Dialed(true));
                passed := Note(cs, past, passed, Dialed(true));
              case DialCancelled =>
                last := Note(cs, past + passed, last, DialDropped);
                res := Cancelled;
                break;
            }
        }
        k := k + 1;
      }
    }
  }

  lemma {:induction false} CountNext(call: seq<Obs>, o: Obs)
    ensures Dials(call + [o]) == Dials(call) + if IsDial(o) then 1 else 0
    ensures Finished(call + [o]) == Finished(call) + if o == SawFinished then 1 else 0
  {
    assert (call + [o])[..|call|] == call;
  }

  // What a call adds to its passed observations is counted as its last one.
  lemma {:induction false} CountEnded(res: StreamResult, passed: seq<Obs>, last: seq<Obs>, net: Network)
    requires Ended(res, last, net)
    ensures Dials(passed + last) == Dials(passed) + if IsDial(last[0]) then 1 else 0
    ensures Finished(passed + last) == Finished(passed)
  {
    CountNext(passed, last[0]);
    if res == Stream {
      CountNext(passed + [SawAlive], Started);
      assert last == [SawAlive] + [Started];
      assert passed + ([SawAlive] + [Started]) == passed + [SawAlive] + [Started];
    } else {
      assert last == [last[0]];
    }
  }

  // One call dials at most once more than it finds connections finished.
  lemma {:induction false} DialsPerCall(past: seq<Obs>, passed: seq<Obs>, last: seq<Obs>,
                                        net: nat -> Network, res: StreamResult)
    requires Legal(past + passed + last) && Passed(passed, net) && Ended(res, last, net(|passed|))
    ensures Dials(passed + last) <= 1 + Finished(passed + last)
  {
    var before, all := past + passed, past + passed + last;
    assert all[..|before|] == before && all[|before|] == last[0];
    LegalAt(all, |before|);
    DialBudget(past, passed, net);
    CountEnded(res, passed, last, net(|passed|));
  }

  // In every history a failed dial is followed by no dial until a reset.
  lemma {:induction false} NoRedialBeforeReset(trace: seq<Obs>, i: nat, j: nat)
    requires Legal(trace) && i < j < |trace|
    requires trace[i] == Dialed(false) && IsDial(trace[j])
    ensures exists k :: i < k < j && trace[k] == WasReset
  {
    LegalAt(trace, j);
    if forall k :: i < k < j ==> trace[k] != WasReset {
      StaysPoisoned(trace, i, j);
    }
  }

  lemma {:induction false} StaysPoisoned(trace: seq<Obs>, i: nat, j: nat)
    requires Legal(trace) && i < j <= |trace|
    requires trace[i] == Dialed(false)
    requires forall k :: i < k < j ==> trace[k] != WasReset
    ensures Replay(trace[..j]) == Some(Poisoned)
    decreases j
  {
    assert trace[..j][..j - 1] == trace[..j - 1];
    LegalAt(trace, j - 1);
    if i < j - 1 {
      StaysPoisoned(trace, i, j - 1);
    }
  }

  // Nothing has ended the connection dialed at `d` before `i`.
  predicate UpSince(trace: seq<Obs>, d: nat, i: nat)
    requires i <= |trace|
  {
    d < i && trace[d] == Dialed(true) &&
    forall k :: d < k < i ==> trace[k] !in {SawFinished, WasReset, Dialed(true), Dialed(false)}
  }

  // A stream is started only right after the connection was seen unfinished,
  // on a connection made by an earlier dial that nothing has ended since.
  lemma {:induction false} StreamsOnlyOnLiveConnection(trace: seq<Obs>, i: nat)
    requires Legal(trace) && i < |trace| && trace[i] == Started
    ensures i > 0 && trace[i - 1] == SawAlive
    ensures exists d: nat :: UpSince(trace, d, i)
  {
    LegalAt(trace, i);
    LegalAt(trace, i - 1);
    var d := LastDial(trace, i - 1);
    assert UpSince(trace, d, i);
  }

  lemma {:induction false} LastDial(trace: seq<Obs>, i: nat) returns (d: nat)
    requires Legal(trace) && i <= |trace| && Replay(trace[..i]) == Some(Connected)
    ensures UpSince(trace, d, i)
  {
    assert trace[..i][..i - 1] == trace[..i - 1];
    if trace[i - 1] == Dialed(true) {
      d := i - 1;
    } else {
      LegalAt(trace, i - 1);
      d := LastDial(trace, i - 1);
    }
  }

  // And a connection is found finished only once: it is one that was made
  // before and that nothing has ended since.
  lemma {:induction false} FinishedEndsConnection(trace: seq<Obs>, i: nat)
    requires Legal(trace) && i < |trace| && trace[i] == SawFinished
    ensures exists d: nat :: UpSince(trace, d, i)
  {
    LegalAt(trace, i);
    var d := LastDial(trace, i);
  }

  // The dial at `d` failed, and nothing has reset the client before `i`.
  predicate PoisonedSince(trace: seq<Obs>, d: nat, i: nat)
    requires i <= |trace|
  {
    d < i && trace[d] == Dialed(false) && forall k :: d < k < i ==> trace[k] != WasReset
  }

  // A call is rejected if and only if a dial has failed since the last reset:
  // then no call does anything else.
  lemma {:induction false} RejectedIffPoisoned(trace: seq<Obs>, i: nat)
    requires Legal(trace) && i < |trace| && trace[i] != WasReset
    ensures trace[i] == Rejected <==> exists d: nat :: PoisonedSince(trace, d, i)
  {
    LegalAt(trace, i);
    if trace[i] == Rejected {
      var d := LastFailedDial(trace, i);
    }
    if d: nat :| PoisonedSince(trace, d, i) {
      StaysPoisoned(trace, d, i);
      assert CanFollow(Poisoned, trace[..i], trace[i]);
    }
  }

  lemma {:induction false} LastFailedDial(trace: seq<Obs>, i: nat) returns (d: nat)
    requires Legal(trace) && i <= |trace| && Replay(trace[..i]) == Some(Poisoned)
    ensures PoisonedSince(trace, d, i)
  {
    assert trace[..i][..i - 1] == trace[..i - 1];
    if trace[i - 1] == Dialed(false) {
      d := i - 1;
    } else {
      LegalAt(trace, i - 1);
      d := LastFailedDial(trace, i - 1);
    }
  }
}
