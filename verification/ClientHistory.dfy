// The client that many tasks share, seen as the client of one caller: what a
// run of the machine in `Lifecycle` lets an observer of a client see is a
// history of `Connector`, at any interleaving.
module ClientHistory {
  import opened Wrappers
  import opened Connector
  import opened Backends
  import opened Lifecycle
  import opened Runs

  // What one step can show to an observer of a client.
  datatype Glimpse = Nothing | One(o: Obs) | Alive | DialedDead | DialedAlive
  {
    function Observations(): seq<Obs> {
      match this
      case Nothing => []
      case One(o) => [o]
      case Alive => [SawAlive, Started]
      case DialedDead => [Dialed(true), SawFinished]
      case DialedAlive => [Dialed(true), SawAlive, Started]
    }

    // It can be shown by a client in state `cs`.
    predicate Fits(cs: ClientState) {
      match this
      case Nothing => true
      case One(o) => o != Started && CanFollow(cs, [], o)
      case Alive => cs.Connected?
      case DialedDead => cs.NotConnected?
      case DialedAlive => cs.NotConnected?
    }

    function After(cs: ClientState): ClientState {
      match this
      case Nothing => cs
      case One(o) => Next(cs, o)
      case Alive => cs
      case DialedDead => NotConnected
      case DialedAlive => Connected
    }
  }

  // What an event shows to an observer of client `c`.
  function Seen(s: World, e: Event, c: nat): Glimpse {
    if e.t >= |s.tasks| then Nothing
    else match e.op
      case LockClient(finished) => if Tries(s.tasks[e.t], c) then SeenLocked(s.b.ClientOf(c), finished) else Nothing
      case DialEnd(ok, finished) => if Tries(s.tasks[e.t], c) then SeenDialled(ok, finished) else Nothing
      case Abort => if Tries(s.tasks[e.t], c) && Lifecycle.Dials(s.tasks[e.t]) then One(DialDropped) else Nothing
      case RetryReset => if c == s.b.client then One(WasReset) else Nothing
      case ResetClear => if c == s.b.client then One(WasReset) else Nothing
      case ProtocolClear => if c == s.b.client then One(WasReset) else Nothing
      case _ => Nothing
  }

  predicate Tries(pc: Pc, c: nat) {
    pc.Trying? && pc.client == c
  }

  function SeenLocked(cs: ClientState, finished: bool): Glimpse {
    match cs
    case Poisoned => One(Rejected)
    case NotConnected => Nothing
    case Connected => if finished then One(SawFinished) else Alive
  }

  function SeenDialled(ok: bool, finished: bool): Glimpse {
    if !ok then One(Dialed(false)) else if finished then DialedDead else DialedAlive
  }

  // What a run shows.
  function History(s: World, es: seq<Event>, c: nat): seq<Obs>
    decreases |es|
  {
    if es == [] || Step(s, es[0]).None? then []
    else Seen(s, es[0], c).Observations() + History(Step(s, es[0]).value, es[1..], c)
  }

  lemma {:induction false} Sees(past: seq<Obs>, cs: ClientState, o: Obs)
    requires Replay(past) == Some(cs) && CanFollow(cs, past, o)
    ensures Replay(past + [o]) == Some(Next(cs, o))
  {
    assert (past + [o])[..|past|] == past;
  }

  lemma {:induction false} SeesLive(past: seq<Obs>)
    requires Replay(past) == Some(Connected)
    ensures Replay(past + [SawAlive, Started]) == Some(Connected)
  {
    Sees(past, Connected, SawAlive);
    Sees(past + [SawAlive], Connected, Started);
    assert past + [SawAlive] + [Started] == past + [SawAlive, Started];
  }

  lemma {:induction false} SeesGlimpse(past: seq<Obs>, cs: ClientState, g: Glimpse)
    requires Replay(past) == Some(cs) && g.Fits(cs)
    ensures Replay(past + g.Observations()) == Some(g.After(cs))
  {
    match g {
      case Nothing => assert past + [] == past;
      case One(o) => Sees(past, cs, o);
      case Alive => SeesLive(past);
      case DialedDead =>
        Sees(past, cs, Dialed(true));
        Sees(past + [Dialed(true)], Connected, SawFinished);
        assert past + [Dialed(true)] + [SawFinished] == past + g.Observations();
      case DialedAlive =>
        Sees(past, cs, Dialed(true));
        SeesLive(past + [Dialed(true)]);
        assert past + [Dialed(true)] + [SawAlive, Started] == past + g.Observations();
    }
  }

  // What a step shows of a client can be shown by it, and is what it does.
  ghost predicate ShowsTruly(s: World, e: Event, c: nat)
    requires Step(s, e).Some?
  {
    var cs := s.b.ClientOf(c);
    Seen(s, e, c).Fits(cs) && Step(s, e).value.b.ClientOf(c) == Seen(s, e, c).After(cs)
  }

  lemma LockShows(s: World, e: Event, c: nat)
    requires Step(s, e).Some? && GroupOf(e.op) == Connecting
    ensures ShowsTruly(s, e, c)
  {
  }

  lemma DialShows(s: World, e: Event, c: nat)
    requires DialInv(s) && CurrentMatches(s) && Step(s, e).Some? && GroupOf(e.op) == Landing
    ensures ShowsTruly(s, e, c)
  {
    assert UsesCurrent(s, s.tasks[e.t]);
  }

  lemma EndShows(s: World, e: Event, c: nat)
    requires DialInv(s) && CurrentMatches(s) && Step(s, e).Some? && GroupOf(e.op) == Ending
    ensures ShowsTruly(s, e, c)
  {
    assert UsesCurrent(s, s.tasks[e.t]);
  }

  lemma ResetShows(s: World, e: Event, c: nat)
    requires DialInv(s) && Step(s, e).Some? && GroupOf(e.op) in {Retrying, Clearing}
    ensures ShowsTruly(s, e, c)
  {
  }

  lemma OtherShows(s: World, e: Event, c: nat)
    requires Step(s, e).Some? && GroupOf(e.op) in {Adding, Guarding, Settlement, Switching}
    ensures ShowsTruly(s, e, c)
  {
  }

  lemma StepShows(s: World, e: Event, c: nat)
    requires LockInv(s) && DialInv(s) && Step(s, e).Some?
    ensures ShowsTruly(s, e, c)
  {
    match GroupOf(e.op) {
      case Connecting => LockShows(s, e, c);
      case Landing => DialShows(s, e, c);
      case Ending => EndShows(s, e, c);
      case Retrying => ResetShows(s, e, c);
      case Clearing => ResetShows(s, e, c);
      case _ => OtherShows(s, e, c);
    }
  }

  lemma StepReplays(s: World, e: Event, past: seq<Obs>, c: nat) returns (s': World)
    requires LockInv(s) && DialInv(s) && Step(s, e).Some?
    requires Replay(past) == Some(s.b.ClientOf(c))
    ensures Step(s, e) == Some(s') && LockInv(s') && DialInv(s')
    ensures Replay(past + Seen(s, e, c).Observations()) == Some(s'.b.ClientOf(c))
  {
    s' := Step(s, e).value;
    StepShows(s, e, c);
    SeesGlimpse(past, s.b.ClientOf(c), Seen(s, e, c));
    LockInvStep(s, e);
    DialInvStep(s, e);
  }

  lemma {:induction false} HistoryNext(s: World, es: seq<Event>, s': World, past: seq<Obs>, c: nat)
    requires es != [] && Step(s, es[0]) == Some(s')
    ensures past + Seen(s, es[0], c).Observations() + History(s', es[1..], c) == past + History(s, es, c)
    ensures Run(s, es) == Run(s', es[1..])
  {
  }

  lemma {:induction false} RunReplays(s: World, es: seq<Event>, past: seq<Obs>, c: nat)
    requires LockInv(s) && DialInv(s) && Run(s, es).Some?
    requires Replay(past) == Some(s.b.ClientOf(c))
    ensures Replay(past + History(s, es, c)) == Some(Run(s, es).value.b.ClientOf(c))
    decreases |es|
  {
    if es == [] {
      assert past + [] == past;
    } else {
      var s' := StepReplays(s, es[0], past, c);
      HistoryNext(s, es, s', past, c);
      RunReplays(s', es[1..], past + Seen(s, es[0], c).Observations(), c);
    }
  }

  // However the tasks interleave, each client's history is a legal one that
  // leads to the client's state.
  lemma {:induction false} SharedClientRefines(status: Status, protocol: Protocol, maxRetries: nat,
                                               es: seq<Event>, c: nat)
    requires Run(NewWorld(status, protocol, maxRetries), es).Some?
    ensures var s := NewWorld(status, protocol, maxRetries);
      Replay(History(s, es, c)) == Some(Run(s, es).value.b.ClientOf(c))
  {
    var s := NewWorld(status, protocol, maxRetries);
    RunReplays(s, es, [], c);
    assert [] + History(s, es, c) == History(s, es, c);
  }

  // A task comes to wait for a stream exactly when its client was just seen
  // to have started one.
  lemma StreamsAsSeen(s: World, e: Event, s': World)
    requires Step(s, e) == Some(s') && e.t < |s.tasks| && s.tasks[e.t].Trying? && s.tasks[e.t].phase != Streaming
    ensures s'.tasks[e.t].Trying? && s'.tasks[e.t].phase == Streaming <==>
      Started in Seen(s, e, s.tasks[e.t].client).Observations()
  {
  }

  // A step of a connection attempt shows a dial of its client if and only if
  // the attempt was dialing, and a rejection if and only if it found the client
  // poisoned; and no other step shows either.
  lemma DialsAsSeen(s: World, e: Event, s': World, c: nat)
    requires Step(s, e) == Some(s') && GroupOf(e.op) != Adding
    ensures var seen := Seen(s, e, c).Observations();
      seen != [] && IsDial(seen[0]) <==> Tries(s.tasks[e.t], c) && Lifecycle.Dials(s.tasks[e.t])
    ensures Rejected in Seen(s, e, c).Observations() <==>
      Tries(s.tasks[e.t], c) && s.tasks[e.t].phase == Locking && e.op.LockClient? && s.b.ClientOf(c) == Poisoned
  {
  }

  // While a task dials a client, holding its mutex, no other task is seen by
  // that client.
  lemma MutexExcludes(s: World, e: Event, c: nat)
    requires LockInv(s) && Step(s, e).Some? && GroupOf(e.op) != Adding
    requires c in s.holders && s.holders[c] != e.t
    ensures Seen(s, e, c) == Nothing
  {
    assert UsesCurrent(s, s.tasks[s.holders[c]]);
  }

  // However the tasks interleave, a failed dial of a client is followed by no
  // dial of it until it is reset.
  lemma {:induction false} NoConcurrentRedial(status: Status, protocol: Protocol, maxRetries: nat,
                                              es: seq<Event>, c: nat, i: nat, j: nat)
    requires Run(NewWorld(status, protocol, maxRetries), es).Some?
    requires var h := History(NewWorld(status, protocol, maxRetries), es, c);
      i < j < |h| && h[i] == Dialed(false) && IsDial(h[j])
    ensures var h := History(NewWorld(status, protocol, maxRetries), es, c);
      exists k :: i < k < j && h[k] == WasReset
  {
    SharedClientRefines(status, protocol, maxRetries, es, c);
    NoRedialBeforeReset(History(NewWorld(status, protocol, maxRetries), es, c), i, j);
  }
}
