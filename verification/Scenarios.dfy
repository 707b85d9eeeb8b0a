// Concrete runs, none of which needs an answer of the network within one poll
// under a cancelled token, except where said.
module Scenarios {
  import opened Wrappers
  import opened Connector
  import opened Backends
  import opened Lifecycle
  import opened Runs
  import opened LifecycleTheorems
  import Alone
  import opened Recovery
  import opened Renewal

  // ----- Two retries at once -----

  // A backend over HTTP/2, where a retry waits for its stream, at rest: nobody
  // writes, and its first client's mutex is free.
  ghost predicate AtRest(s: World, status: Status, maxRetries: nat, tasks: seq<Pc>) {
    && Occurs(s) && s.b.status == status && !s.b.retrying && s.tasks == tasks && s.maxRetries == maxRetries
    && s.b.token == 0 && s.b.client == 0 && s.writer.None? && s.holders == map[] && s.b.protocol == HTTP2
  }

  // Two attempts are handed the backend.
  lemma BothPicked(n: nat) returns (s: World)
    ensures AtRest(s, Normal, n, [Picked, Picked]) && s.b.Current() == NotConnected && Live(s)
  {
    s := NewOccurs(Normal, HTTP2, n);
    s := OccurStep(s, Event(Pick, 0, false));
    s := OccurStep(s, Event(Pick, 0, false));
  }

  lemma OneDials(n: nat) returns (s: World)
    ensures Occurs(s) && s.b.status == Normal && !s.b.retrying && s.tasks == [Trying(Attempt, Dialing, 0, 0), Picked]
    ensures s.maxRetries == n && s.b.token == s.b.client == 0 && s.writer.None? && s.holders == map[0 := 0]
    ensures s.b.protocol == HTTP2 && Live(s)
  {
    s := BothPicked(n);
    s := OccurStep(s, Event(BeginAttempt, 0, false));
    s := OccurStep(s, Event(LockClient(false), 0, false));
  }

  // The first one's dial fails.
  lemma OneAttemptFails(n: nat) returns (s: World)
    ensures AtRest(s, Closed, n, [Done, Picked, RetrySpawned]) && s.b.Current() == Poisoned && Live(s)
  {
    s := OneDials(n);
    s := OccurStep(s, Event(DialEnd(false, false), 0, false));
  }

  // The second finds the client poisoned.
  lemma BothAttemptsFail() returns (s: World)
    ensures AtRest(s, Closed, 1, [Done, Done, RetrySpawned, RetrySpawned]) && Live(s)
  {
    s := OneAttemptFails(1);
    s := OccurStep(s, Event(BeginAttempt, 1, false));
    s := OccurStep(s, Event(LockClient(false), 1, false));
  }

  // Each leaves a retry_forever task.
  lemma TwoRetryTasks() returns (s: World)
    ensures AtRest(s, Closed, 1, [Done, Done, RetryWaiting(1), RetryWaiting(1)]) && Live(s)
  {
    s := BothAttemptsFail();
    s := OccurStep(s, Event(RetryStart, 2, false));
    s := OccurStep(s, Event(RetryStart, 3, false));
  }

  // Both find the flag clear.
  lemma BothLoaded() returns (s: World)
    ensures Occurs(s) && s.tasks == [Done, Done, RetryLoaded(1), RetryLoaded(1)]
  {
    s := TwoRetryTasks();
    s := OccurStep(s, Event(RetryCheck, 2, true));
    s := OccurStep(s, Event(RetryLoad, 2, true));
    s := OccurStep(s, Event(RetryCheck, 3, true));
    s := OccurStep(s, Event(RetryLoad, 3, true));
  }

  // Below await level the load and the store of the flag race: two retries of
  // one backend can run at once.
  lemma PreemptionBreaksRetryFlag()
    ensures exists s: World :: Occurs(s) && |s.tasks| == 4 && InRetry(s.tasks[2]) && InRetry(s.tasks[3])
  {
    var s := BothLoaded();
    s := OccurStep(s, Event(RetryStore, 2, false));
    s := OccurStep(s, Event(RetryStore, 3, false));
    assert Occurs(s) && |s.tasks| == 4 && InRetry(s.tasks[2]) && InRetry(s.tasks[3]);
  }

  // ----- A poisoned client that is Normal -----

  // The interleaving that breaks it: an attempt picked before the backend went
  // down poisons the client while the retry's stream starts.
  lemma PoisonedNormalWhenNotAlone()
    ensures exists s: World :: Occurs(s) && s.b.protocol == HTTP2 && s.b.status == Normal && s.b.Current() == Poisoned
  {
    var s := RetryAndAttempt();
    s := OccurStep(s, Event(DialEnd(false, false), 1, false));
    s := OccurStep(s, Event(StreamEnd(true), 2, false));
    assert Occurs(s) && s.b.protocol == HTTP2 && s.b.status == Normal && s.b.Current() == Poisoned;
  }

  // Below await level a failed dial alone does it, until the backend is marked
  // down.
  lemma PoisonedNormalBeforeMarked() returns (s: World)
    ensures Occurs(s) && s.b.status == Normal && s.b.Current() == Poisoned
    ensures s.tasks == [Settling(Attempt, false), Picked]
  {
    s := OneDials(1);
    s := OccurStep(s, Event(DialEnd(false, false), 0, true));
  }

  lemma RetryAndAttempt() returns (s: World)
    ensures Occurs(s) && s.tasks == [Done, Trying(Attempt, Dialing, 0, 0), Trying(Retry(1), Streaming, 0, 0)]
    ensures s.b.client == 0
    ensures s.b.protocol == HTTP2
  {
    s := RetryStreaming(1);
    s := OccurStep(s, Event(BeginAttempt, 1, false));
    assert s.tasks == [Done, Trying(Attempt, Locking, 0, 0), Trying(Retry(1), Streaming, 0, 0)];
    s := OccurStep(s, Event(LockClient(true), 1, false));
  }

  lemma RetryBegun(n: nat) returns (s: World)
    ensures Occurs(s) && s.b.status == Closed && s.tasks == [Done, Picked, Resetting(s.Limit())] && s.maxRetries == n
    ensures s.b.token == s.b.client == 0 && s.writer.None? && s.holders == map[] && Live(s)
    ensures s.b.protocol == HTTP2 && s.b.retrying
  {
    s := OneAttemptFails(n);
    s := OccurStep(s, Event(RetryStart, 2, false));
    s := OccurStep(s, Event(RetryCheck, 2, false));
  }

  lemma RetryResetting(n: nat) returns (s: World)
    ensures Occurs(s) && s.b.status == Closed && s.tasks == [Done, Picked, Trying(Retry(s.Limit()), Locking, 0, 0)]
    ensures s.b.token == s.b.client == 0 && s.b.Current() == NotConnected && s.writer.None? && s.holders == map[]
    ensures Live(s) && s.maxRetries == n && s.b.protocol == HTTP2 && s.b.retrying
  {
    s := RetryBegun(n);
    s := OccurStep(s, Event(RetryReset, 2, false));
  }

  lemma RetryStreaming(n: nat) returns (s: World)
    ensures Occurs(s) && s.b.status == Closed && s.tasks == [Done, Picked, Trying(Retry(s.Limit()), Streaming, 0, 0)]
    ensures s.b.token == s.b.client == 0 && s.b.Current() == Connected && s.writer.None? && s.holders == map[]
    ensures Live(s) && s.maxRetries == n && s.b.protocol == HTTP2 && s.b.retrying
  {
    s := RetryResetting(n);
    s := OccurStep(s, Event(LockClient(false), 2, false));
    s := OccurStep(s, Event(DialEnd(true, false), 2, false));
  }

  // ----- A ForceClosed backend that comes back by itself -----

  // A toggle-free await-level run leads from s to s', in which no wait begins
  // under a cancelled token.
  ghost predicate Leads(s: World, s': World) {
    exists es :: ToggleFree(es) && AwaitLevel(es) && NeverLingers(s, es) && Run(s, es) == Some(s')
  }

  lemma SwitchedWhileStreaming() returns (s: World)
    ensures Occurs(s) && s.tasks == [Done, Picked, Trying(Retry(1), Streaming, 0, 0), SwitchCancelling]
    ensures s.b.status == Closed && s.b.protocol == HTTP2 && s.writer.None?
  {
    s := RetryStreaming(1);
    s := OccurStep(s, Event(AskSwitch, 0, false));
  }

  // An administrator closes a backend while a retry waits for its stream.
  lemma ClosedWhileStreaming() returns (s: World)
    ensures Occurs(s) && s.b.status == ForceClosed && s.tasks == [Done, Picked, Trying(Retry(1), Streaming, 0, 0), Done]
    ensures s.b.protocol == HTTP2
  {
    s := SwitchedWhileStreaming();
    s := OccurStep(s, Event(SwitchCancel, 3, false));
    s := OccurStep(s, Event(SwitchToggle, 3, false));
  }

  // The stream is there when the retry next polls: a reachable backend goes
  // from ForceClosed to Normal with no toggle.
  lemma ForceClosedComesBack() returns (s: World, s': World)
    ensures Occurs(s) && s.b.protocol == HTTP2 && s.b.status == ForceClosed && Leads(s, s') && s'.b.status == Normal
  {
    s := ClosedWhileStreaming();
    var e := Event(StreamEnd(true), 2, false);
    s' := Step(s, e).value;
    RunCons(s, e, []);
    assert [e] + [] == [e];
    assert ToggleFree([e]) && AwaitLevel([e]);
  }

  // ----- A backend that is cut off and comes back within one poll -----

  // A run over QUIC leads here, in which the client has connected before: its
  // next dial can use the address and the session that it keeps.
  ghost predicate Since(s: World, connected: bool) {
    exists past ::
      NeverLingers(NewWorld(Normal, Quic, 1), past) && Run(NewWorld(Normal, Quic, 1), past) == Some(s) &&
      (connected ==> Event(DialEnd(true, false), 0, false) in past)
  }

  lemma SinceStart() returns (s: World)
    ensures s == NewWorld(Normal, Quic, 1) && Since(s, false)
  {
    s := NewWorld(Normal, Quic, 1);
    assert NeverLingers(s, []) && Run(s, []) == Some(s);
  }

  lemma SinceStep(s: World, e: Event, connected: bool) returns (s': World)
    requires Since(s, connected) && Step(s, e).Some? && !Lingers(s, e)
    ensures Step(s, e) == Some(s') && Since(s', connected || e == Event(DialEnd(true, false), 0, false))
  {
    s' := Step(s, e).value;
    var start := NewWorld(Normal, Quic, 1);
    var past :| NeverLingers(start, past) && Run(start, past) == Some(s) &&
      (connected ==> Event(DialEnd(true, false), 0, false) in past);
    RunCons(s, e, []);
    assert [e] + [] == [e];
    RunSplit(start, past, [e]);
    LingersSplit(start, past, [e]);
    assert NeverLingers(start, past + [e]) && Run(start, past + [e]) == Some(s') && e in past + [e];
  }

  ghost predicate Connects(s: World, tasks: seq<Pc>) {
    && s.tasks == tasks && !s.b.retrying && s.b.token == 0 && s.b.client == 0 && s.writer.None? && s.maxRetries == 1
  }

  lemma FirstDial() returns (s: World)
    ensures Since(s, false) && s.b.status == Normal && Connects(s, [Trying(Attempt, Dialing, 0, 0)])
    ensures s.holders == map[0 := 0] && Live(s)
  {
    s := SinceStart();
    s := SinceStep(s, Event(Pick, 0, false), false);
    s := SinceStep(s, Event(BeginAttempt, 0, false), false);
    s := SinceStep(s, Event(LockClient(false), 0, false), false);
  }

  // The client connects, and serves a connection.
  lemma Served() returns (s: World)
    ensures Since(s, true) && s.b.status == Normal && Connects(s, [Done]) && s.holders == map[] && Live(s)
  {
    s := FirstDial();
    s := SinceStep(s, Event(DialEnd(true, false), 0, false), false);
    s := SinceStep(s, Event(StreamEnd(true), 0, false), true);
    s := SinceStep(s, Event(BeginTransfer, 0, false), true);
    s := SinceStep(s, Event(EndTransfer(false), 0, false), true);
  }

  lemma PickedAndSwitching() returns (s: World)
    ensures Since(s, true) && s.b.status == Normal && Connects(s, [Done, Picked, SwitchCancelling])
    ensures s.holders == map[]
  {
    s := Served();
    s := SinceStep(s, Event(Pick, 0, false), true);
    s := SinceStep(s, Event(AskSwitch, 0, false), true);
  }

  // An administrator closes a backend that was just handed out.
  lemma ClosedWhilePicked() returns (s: World)
    ensures Since(s, true) && s.b.status == ForceClosed && Connects(s, [Done, Picked, Done]) && s.holders == map[]
    ensures !Live(s)
  {
    s := PickedAndSwitching();
    s := SinceStep(s, Event(SwitchCancel, 2, false), true);
    s := SinceStep(s, Event(SwitchToggle, 2, false), true);
  }

  // The attempt is dropped and marks the backend Closed.
  lemma DroppedWhileClosed() returns (s: World)
    ensures Since(s, true) && s.b.status == Closed && Connects(s, [Done, Done, Done, RetrySpawned])
    ensures s.holders == map[]
    ensures !Live(s)
  {
    s := ClosedWhilePicked();
    s := SinceStep(s, Event(BeginAttempt, 1, false), true);
    s := SinceStep(s, Event(Abort, 1, false), true);
  }

  lemma CutOffResetting() returns (s: World)
    ensures Since(s, true) && CutOff(s, {}) && s.tasks == [Done, Done, Done, Resetting(1)]
    ensures s.b.token == s.b.client == 0 && s.holders == map[]
  {
    s := DroppedWhileClosed();
    s := SinceStep(s, Event(RetryStart, 3, false), true);
    s := SinceStep(s, Event(RetryCheck, 3, false), true);
  }

  // Its retry begins.
  lemma CutOffRetry() returns (s: World)
    ensures Since(s, true) && CutOff(s, {}) && s.tasks == [Done, Done, Done, Trying(Retry(1), Locking, 0, 0)]
    ensures s.b.Current() == NotConnected && s.b.client == 0 && s.holders == map[]
  {
    s := CutOffResetting();
    s := SinceStep(s, Event(RetryReset, 3, false), true);
  }

  // Only an answer within the same poll can restore it: a dial and a stream
  // that make the retry wait for nothing do.
  lemma CutOffComesBackAtOnce() returns (s: World, es: seq<Event>)
    ensures Since(s, true) && CutOff(s, {}) && Alone.Solo(es, 3) && |es| == 3
    ensures Run(s, es).Some? && Run(s, es).value.b.status == Normal && forall i :: 0 <= i < |es| ==> !Renews(es[i].op)
    ensures !Prompt(s, es, {})
  {
    s := CutOffRetry();
    es := Alone.DialAndStream(3, true);
    var s' := AnsweredAtOnce(s);
    DialAndStreamOnly(3);
    SinceReachable(s);
    NotPrompt(s, es);
  }

  lemma DialAndStreamOnly(t: Task)
    ensures var es := Alone.DialAndStream(t, true);
      |es| == 3 && Alone.Solo(es, t) && forall i :: 0 <= i < |es| ==> !Renews(es[i].op)
  {
  }

  lemma SinceReachable(s: World)
    requires Since(s, true)
    ensures Reachable(s)
  {
  }

  lemma {:induction false} NotPrompt(s: World, es: seq<Event>)
    requires Reachable(s) && CutOff(s, {}) && Run(s, es).Some? && Run(s, es).value.b.status == Normal
    requires forall i :: 0 <= i < |es| ==> !Renews(es[i].op)
    ensures !Prompt(s, es, {})
  {
    ReachableInv(s);
    if Prompt(s, es, {}) {
      CutOffStaysDown(s, es, {});
    }
  }

  lemma AnsweredAtOnce(s: World) returns (s': World)
    requires s.tasks == [Done, Done, Done, Trying(Retry(1), Locking, 0, 0)]
    requires s.b.Current() == NotConnected && s.b.client == 0 && s.holders == map[]
    ensures Run(s, Alone.DialAndStream(3, true)) == Some(s') && s'.b.status == Normal
  {
    var es := Alone.DialAndStream(3, true);
    var s1 := Step(s, es[0]).value;
    var s2 := Step(s1, es[1]).value;
    s' := Step(s2, es[2]).value;
    RunCons(s2, es[2], []);
    RunCons(s1, es[1], [es[2]]);
    RunCons(s, es[0], [es[1], es[2]]);
    assert [es[2]] + [] == [es[2]] && [es[1]] + [es[2]] == [es[1], es[2]] && [es[0]] + [es[1], es[2]] == es;
  }

  // ----- A backend that is abandoned -----

  lemma TwoIdleRetries() returns (s: World)
    ensures Occurs(s) && Alone.Idle(s) && Live(s) && s.b.RetryBegins()
    ensures s.tasks == [Done, Done, RetryWaiting(1), RetryWaiting(1)]
  {
    s := TwoRetryTasks();
    ReachableInv(s);
    assert forall t: Task :: t < |s.tasks| ==> !HoldsRead(s.tasks[t]);
    assert s.readers == {};
  }

  lemma BothGiveUp() returns (s: World)
    ensures Occurs(s) && s.b.status == Closed && Live(s) && s.tasks == [Done, Done, Done, Done]
  {
    var s0 := TwoIdleRetries();
    var s1 := Alone.RoundFails(s0, 2);
    s := Alone.RoundFails(s1, 3);
    OccurRun(s0, Alone.FailingRound(2), s1);
    OccurRun(s1, Alone.FailingRound(3), s);
  }

  // Each retry_forever task tries as often as it may, and gives up.
  lemma GivenUpIsAbandoned() returns (s: World)
    ensures Occurs(s) && s.b.status == Closed && Live(s) && !CanRevive(s)
    ensures forall t: Task :: t < |s.tasks| ==> s.tasks[t] == Done
    ensures forall e :: Step(s, e).Some? ==> e.op in {AskSwitch, AskReset, AskProtocol}
  {
    s := BothGiveUp();
    DoneForGood(s);
  }

  // Once a retry's connection is there, an attempt waits for a stream on it too.
  lemma BothStreaming(n: nat) returns (s: World)
    ensures Occurs(s) && s.tasks == [Done, Trying(Attempt, Streaming, 0, 0), Trying(Retry(s.Limit()), Streaming, 0, 0)]
    ensures s.b.status == Closed && s.b.retrying && s.b.token == 0 && Live(s) && s.writer.None? && s.maxRetries == n
  {
    s := RetryStreaming(n);
    s := OccurStep(s, Event(BeginAttempt, 1, false));
    s := OccurStep(s, Event(LockClient(false), 1, false));
  }

  // The retry has its stream and stores Normal, and is preempted before it
  // clears the flag.
  lemma RetryStored(n: nat) returns (s: World)
    ensures Occurs(s) && s.tasks == [Done, Trying(Attempt, Streaming, 0, 0), Unflagging(s.Limit(), true)]
    ensures s.b.status == Normal && s.b.retrying && s.b.token == 0 && Live(s) && s.writer.None? && s.maxRetries == n
  {
    s := BothStreaming(n);
    s := OccurStep(s, Event(StreamEnd(true), 2, true));
    s := OccurStep(s, Event(Settle, 2, true));
  }

  // Meanwhile the attempt's stream fails.
  lemma DownBesideFlag(n: nat) returns (s: World)
    ensures Occurs(s) && s.tasks == [Done, Done, Unflagging(s.Limit(), true), RetryWaiting(s.Limit())]
    ensures s.b.status == Closed && s.b.retrying && s.b.token == 0 && Live(s) && s.writer.None? && s.maxRetries == n
  {
    s := RetryStored(n);
    s := OccurStep(s, Event(StreamEnd(false), 1, false));
    s := OccurStep(s, Event(RetryStart, 3, false));
  }

  // Then its retry finds the flag set, and leaves the backend to the retry
  // that has already succeeded: with all of their tries left, both are done.
  lemma YieldedIsAbandoned(n: nat) returns (s: World, s': World)
    ensures Occurs(s) && s.tasks == [Done, Done, Unflagging(s.Limit(), true), RetryWaiting(s.Limit())] && RecoveryInv(s)
    ensures s.maxRetries == n && Yields(s, Event(RetryCheck, 3, false))
    ensures Run(s, [Event(RetryCheck, 3, false), Event(RetryUnflag, 2, false)]) == Some(s')
    ensures Occurs(s') && s'.b.status == Closed && Live(s') && !CanRevive(s')
    ensures s'.tasks == [Done, Done, Done, Done]
    ensures forall e :: Step(s', e).Some? ==> e.op in {AskSwitch, AskReset, AskProtocol}
  {
    s := DownBesideFlag(n);
    s' := YieldsThenUnflags(s);
    OccurRun(s, [Event(RetryCheck, 3, false), Event(RetryUnflag, 2, false)], s');
    assert Recovers(s.tasks[3]);
    DoneForGood(s');
  }

  lemma YieldsThenUnflags(s: World) returns (s': World)
    requires |s.tasks| == 4 && s.tasks[..2] == [Done, Done] && s.tasks[2].Unflagging? && s.tasks[2].ok
    requires s.tasks[3].RetryWaiting? && s.b.status == Closed && s.b.retrying && s.writer.None?
    ensures Yields(s, Event(RetryCheck, 3, false))
    ensures var es := [Event(RetryCheck, 3, false), Event(RetryUnflag, 2, false)];
      Run(s, es) == Some(s') && NeverLingers(s, es)
    ensures s'.tasks == [Done, Done, Done, Done] && s'.b == s.b.(retrying := false)
  {
    var check, unflag := Event(RetryCheck, 3, false), Event(RetryUnflag, 2, false);
    var s1 := Step(s, check).value;
    s' := Step(s1, unflag).value;
    RunTwo(s, check, s1, unflag, s');
  }

  lemma {:induction false} RunTwo(s: World, e1: Event, s1: World, e2: Event, s2: World)
    requires Step(s, e1) == Some(s1) && Step(s1, e2) == Some(s2) && !Lingers(s, e1) && !Lingers(s1, e2)
    ensures Run(s, [e1, e2]) == Some(s2) && NeverLingers(s, [e1, e2])
  {
    RunCons(s1, e2, []);
    RunCons(s, e1, [e2]);
    assert [e2] + [] == [e2] && [e1] + [e2] == [e1, e2];
  }

  lemma DoneForGood(s: World)
    requires Down(s) && Live(s) && forall t: Task :: t < |s.tasks| ==> s.tasks[t] == Done
    ensures !CanRevive(s) && forall e :: Step(s, e).Some? ==> e.op in {AskSwitch, AskReset, AskProtocol}
  {
    forall e | Step(s, e).Some?
      ensures e.op in {AskSwitch, AskReset, AskProtocol}
    {
    }
  }

  lemma {:induction false} OccurRun(s: World, es: seq<Event>, s': World)
    requires Occurs(s) && Run(s, es) == Some(s') && NeverLingers(s, es)
    ensures Occurs(s')
  {
    var status, protocol, maxRetries: nat, before :|
      NeverLingers(NewWorld(status, protocol, maxRetries), before) &&
        Run(NewWorld(status, protocol, maxRetries), before) == Some(s);
    RunSplit(NewWorld(status, protocol, maxRetries), before, es);
    LingersSplit(NewWorld(status, protocol, maxRetries), before, es);
  }
}
