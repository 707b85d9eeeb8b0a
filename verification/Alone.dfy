// Whole activities that run without interruption: what every such run does.
module Alone {
  import opened Wrappers
  import opened Connector
  import opened Backends
  import opened Lifecycle
  import opened Runs
  import opened RetryTheorems

  // A backend that no task is at work on.
  ghost predicate Idle(s: World) {
    LockInv(s) && s.CanWrite()
  }

  // Steps of one task, preempted nowhere.
  predicate Solo(es: seq<Event>, t: Task) {
    forall i :: 0 <= i < |es| ==> es[i].t == t && !es[i].fine && GroupOf(es[i].op) != Adding
  }

  function Last(es: seq<Event>): Op
    requires es != []
  {
    es[|es| - 1].op
  }

  // Everything but the task, the status, the flag and the clients is as it was.
  ghost predicate SameRest(base: World, s: World) {
    && s.b.token == base.b.token && s.b.cancelled == base.b.cancelled && s.b.protocol == base.b.protocol
    && s.b.client == base.b.client && s.maxRetries == base.maxRetries && s.writer.None?
  }

  // ----- A connection attempt, for a peer or for a retry -----

  // Task t, of an idle world `base`, is at its attempt and alone holds a guard.
  ghost predicate AttemptUnderWay(base: World, s: World, t: Task, kind: Kind) {
    && SameRest(base, s) && t < |base.tasks| && t < |s.tasks|
    && s.tasks == base.tasks[t := s.tasks[t]] && s.readers == {t}
    && s.tasks[t].Trying? && s.tasks[t].kind == kind
    && s.tasks[t].token == s.b.token && s.tasks[t].client == s.b.client
    && s.holders == (if s.tasks[t].phase == Dialing then map[s.b.client := t] else map[])
    && (s.tasks[t].phase == Dialing ==> s.b.Current() == NotConnected)
    && (s.tasks[t].phase == Streaming ==> s.b.Current() == Connected)
  }

  // It has ended by event `last`, having begun with a client in state `cs`.
  ghost predicate AttemptEnded(base: World, s: World, t: Task, kind: Kind, cs: ClientState, last: Op) {
    var ok := last == StreamEnd(true);
    && SameRest(base, s) && t < |base.tasks| && s.readers == {} && s.holders == map[]
    && (last.StreamEnd? || (last.DialEnd? && !last.ok) || (last.LockClient? && cs == Poisoned))
    && s.b.Current() == (if last.StreamEnd? then Connected else Poisoned)
    && match kind
       case Attempt =>
         s.tasks == if ok then base.tasks[t := Opened] else base.tasks[t := Done] + [RetrySpawned]
       case Retry(left) =>
         s.tasks == base.tasks[t := if ok || left <= 1 then Done else RetryWaiting(left - 1)] && !s.b.retrying
  }

  function StatusAfter(kind: Kind, before: Status, last: Op): Status {
    if last != StreamEnd(true) then Closed else if kind.Retry? then Normal else before
  }

  ghost predicate AttemptGoesOn(base: World, s: World, t: Task, kind: Kind, e: Event)
    requires t < |s.tasks| && s.tasks[t].Trying? && Step(s, e).Some?
  {
    var s' := Step(s, e).value;
    || (AttemptUnderWay(base, s', t, kind) && s'.b.status == s.b.status && s'.b.retrying == s.b.retrying &&
      s'.tasks[t].phase != Locking)
    || (AttemptEnded(base, s', t, kind, if s.tasks[t].phase == Locking then s.b.Current() else NotConnected, e.op)
        && s'.b.status == StatusAfter(kind, s.b.status, e.op))
  }

  lemma LockStep(base: World, s: World, t: Task, kind: Kind, e: Event)
    requires AttemptUnderWay(base, s, t, kind) && Step(s, e).Some? && e.t == t && !e.fine && e.op.LockClient?
    ensures AttemptGoesOn(base, s, t, kind, e)
    ensures s.b.Current() == Poisoned <==> !Step(s, e).value.tasks[t].Trying?
  {
  }

  lemma DialStep(base: World, s: World, t: Task, kind: Kind, e: Event)
    requires AttemptUnderWay(base, s, t, kind) && Step(s, e).Some? && e.t == t && !e.fine && e.op.DialEnd?
    ensures AttemptGoesOn(base, s, t, kind, e)
  {
  }

  lemma StreamStep(base: World, s: World, t: Task, kind: Kind, e: Event)
    requires AttemptUnderWay(base, s, t, kind) && Step(s, e).Some? && e.t == t && !e.fine && e.op.StreamEnd?
    ensures AttemptGoesOn(base, s, t, kind, e)
  {
  }

  lemma AttemptOps(s: World, t: Task, e: Event)
    requires t < |s.tasks| && s.tasks[t].Trying? && s.tasks[t].token !in s.b.cancelled
    requires Step(s, e).Some? && e.t == t && GroupOf(e.op) != Adding
    ensures match s.tasks[t].phase
      case Locking => e.op.LockClient?
      case Dialing => e.op.DialEnd?
      case Streaming => e.op.StreamEnd?
  {
  }

  lemma AttemptStep(base: World, s: World, t: Task, kind: Kind, e: Event)
    requires Live(base) && AttemptUnderWay(base, s, t, kind)
    requires Step(s, e).Some? && e.t == t && !e.fine && GroupOf(e.op) != Adding
    ensures AttemptGoesOn(base, s, t, kind, e)
    ensures s.tasks[t].phase == Locking && s.b.Current() == Poisoned ==>
      e.op.LockClient? && !Step(s, e).value.tasks[t].Trying?
  {
    AttemptOps(s, t, e);
    match s.tasks[t].phase {
      case Locking => LockStep(base, s, t, kind, e);
      case Dialing => DialStep(base, s, t, kind, e);
      case Streaming => StreamStep(base, s, t, kind, e);
    }
  }

  // A task whose attempt has ended has other events ahead.
  lemma AfterAttempt(s: World, t: Task, e: Event)
    requires t < |s.tasks| && (s.tasks[t].Done? || s.tasks[t].Opened? || s.tasks[t].RetryWaiting?)
    requires Step(s, e).Some? && e.t == t && GroupOf(e.op) != Adding
    ensures e.op in {BeginTransfer, RetryCheck}
  {
  }

  predicate Within(es: seq<Event>) {
    forall i :: 0 <= i < |es| ==> es[i].op !in {BeginTransfer, RetryCheck}
  }

  // However often a new connection turns out dead on arrival, the attempt ends
  // by a failed dial, by its stream, or at once by a poisoned client.
  lemma {:induction false} AttemptRuns(base: World, s: World, t: Task, kind: Kind, es: seq<Event>, s': World)
    requires Live(base) && AttemptUnderWay(base, s, t, kind)
    requires Solo(es, t) && Within(es) && Run(s, es) == Some(s') && t < |s'.tasks|
    requires !(s'.tasks[t].Trying? && s'.tasks[t].kind == kind)
    ensures es != []
    ensures var cs := if s.tasks[t].phase == Locking then s.b.Current() else NotConnected;
      AttemptEnded(base, s', t, kind, cs, Last(es))
    ensures s'.b.status == StatusAfter(kind, s.b.status, Last(es))
    ensures s.tasks[t].phase == Locking && s.b.Current() == Poisoned <==> Last(es).LockClient?
    decreases |es|
  {
    if es != [] {
      AttemptStep(base, s, t, kind, es[0]);
      var s1 := Step(s, es[0]).value;
      if s1.tasks[t].Trying? {
        AttemptRuns(base, s1, t, kind, es[1..], s');
      } else if |es| > 1 {
        AfterAttempt(s1, t, es[1]);
      }
    }
  }

  lemma IdleHoldsNothing(s: World)
    requires Idle(s)
    ensures s.holders == map[]
  {
  }

  // An uninterrupted attempt opens a stream if its last event is the stream's
  // success, and otherwise marks the backend Closed and spawns one retry; it
  // leaves the client poisoned if it was, or if its last event is a failed dial.
  lemma {:induction false} AttemptAlone(s: World, t: Task, es: seq<Event>, s': World)
    requires Idle(s) && Live(s) && t < |s.tasks| && s.tasks[t] == Picked
    requires Solo(es, t) && Within(es) && Run(s, es) == Some(s') && t < |s'.tasks| && s'.tasks[t] in {Opened, Done}
    ensures es != []
    ensures var ok := Last(es) == StreamEnd(true);
      && s'.tasks == (if ok then s.tasks[t := Opened] else s.tasks[t := Done] + [RetrySpawned])
      && s'.b.status == (if ok then s.b.status else Closed)
      && (s'.b.Current() == Poisoned <==> s.b.Current() == Poisoned || (Last(es).DialEnd? && !Last(es).ok))
      && (s'.b.Current() != Poisoned ==> s'.b.Current() == Connected && Last(es).StreamEnd?)
      && s'.CanWrite()
  {
    IdleHoldsNothing(s);
    assert es[0].op == BeginAttempt;
    AttemptRuns(s, Step(s, es[0]).value, t, Attempt, es[1..], s');
  }

  // ----- A retry -----

  lemma RunHead(s: World, es: seq<Event>, s': World) returns (s1: World)
    requires Run(s, es) == Some(s') && s != s'
    ensures es != [] && Step(s, es[0]) == Some(s1) && Run(s1, es[1..]) == Some(s')
  {
    s1 := Step(s, es[0]).value;
  }

  // It checks, resets the client, and tries to connect.
  lemma RetryToAttempt(s: World, t: Task, es: seq<Event>, s': World) returns (s2: World)
    requires Idle(s) && s.b.RetryBegins() && t < |s.tasks| && s.tasks[t].RetryWaiting?
    requires es != [] && Solo(es, t) && Run(s, es) == Some(s') && t < |s'.tasks| && !InRetry(s'.tasks[t])
    ensures |es| > 1 && es[0].op == RetryCheck && es[1].op == RetryReset
    ensures Step(s, es[0]).Some? && Step(Step(s, es[0]).value, es[1]) == Some(s2)
    ensures |es| > 1 && Run(s2, es[2..]) == Some(s') && AttemptUnderWay(s, s2, t, Retry(s.tasks[t].left))
    ensures s2.tasks[t].phase == Locking && s2.b.Current() == NotConnected && s2.b.retrying
  {
    IdleHoldsNothing(s);
    CheckOnly(s, t, es[0]);
    var s1 := Step(s, es[0]).value;
    s2 := RunHead(s1, es[1..], s');
    ResetOnly(s1, t, es[1]);
    assert es[1..][1..] == es[2..];
  }

  lemma CheckOnly(s: World, t: Task, e: Event)
    requires s.b.RetryBegins() && t < |s.tasks| && s.tasks[t].RetryWaiting?
    requires e.t == t && !e.fine && GroupOf(e.op) != Adding && Step(s, e).Some?
    ensures e.op == RetryCheck
    ensures Step(s, e).value == s.(b := s.b.(retrying := true)).Guard(t).At(t, Resetting(s.tasks[t].left))
  {
  }

  lemma ResetOnly(s: World, t: Task, e: Event)
    requires t < |s.tasks| && s.tasks[t].Resetting?
    requires e.t == t && GroupOf(e.op) != Adding && Step(s, e).Some?
    ensures e.op == RetryReset
  {
  }

  lemma AfterTwo(es: seq<Event>, t: Task)
    requires |es| > 1 && Solo(es, t) && Within(es[1..])
    ensures Solo(es[2..], t) && Within(es[2..]) && (|es| > 2 ==> Last(es[2..]) == Last(es))
  {
    assert forall i :: 0 <= i < |es| - 2 ==> es[2..][i] == es[i + 2] == es[1..][i + 1];
  }

  lemma {:induction false} RetryEnds(s: World, s2: World, t: Task, left: nat, rest: seq<Event>, s': World)
    requires Live(s) && AttemptUnderWay(s, s2, t, Retry(left)) && s2.tasks[t].phase == Locking
    requires s2.b.Current() == NotConnected
    requires Solo(rest, t) && Within(rest) && Run(s2, rest) == Some(s') && t < |s'.tasks| && !InRetry(s'.tasks[t])
    ensures rest != [] && RetryResult(s, s', t, left, Last(rest))
  {
    AttemptRuns(s, s2, t, Retry(left), rest, s');
  }

  // What a retry with `left` tries, that began in world s, leaves.
  ghost predicate RetryResult(s: World, s': World, t: Task, left: nat, last: Op)
    requires t < |s.tasks|
  {
    var ok := last == StreamEnd(true);
    && s'.b.status == (if ok then Normal else Closed)
    && (s'.b.Current() == Poisoned <==> last.DialEnd? && !last.ok)
    && (s'.b.Current() != Poisoned ==> s'.b.Current() == Connected && last.StreamEnd?)
    && s'.tasks == s.tasks[t := if ok || left <= 1 then Done else RetryWaiting(left - 1)]
    && !s'.b.retrying && s'.CanWrite() && s'.b.token == s.b.token && s'.b.client == s.b.client
  }

  // An uninterrupted retry of a backend that is down ends Normal if and only
  // if its last event is its stream's success, and Closed otherwise; the client
  // is poisoned if and only if that event is a failed dial.
  lemma {:induction false} RetryAlone(s: World, t: Task, es: seq<Event>, s': World)
    requires Idle(s) && Live(s) && s.b.RetryBegins() && t < |s.tasks| && s.tasks[t].RetryWaiting?
    requires es != [] && Solo(es, t) && Within(es[1..]) && Run(s, es) == Some(s')
    requires t < |s'.tasks| && !InRetry(s'.tasks[t])
    ensures RetryResult(s, s', t, s.tasks[t].left, Last(es))
  {
    var s2 := RetryToAttempt(s, t, es, s');
    var rest := es[2..];
    AfterTwo(es, t);
    RetryEnds(s, s2, t, s.tasks[t].left, rest, s');
  }

  // A retry that finds the backend up, closed by hand, or being retried is over:
  // it sets nothing, and does not touch the client.
  lemma {:induction false} RetryTurnsAway(s: World, t: Task, es: seq<Event>, s': World)
    requires Idle(s) && !s.b.RetryBegins() && t < |s.tasks| && s.tasks[t].RetryWaiting?
    requires Solo(es, t) && Run(s, es) == Some(s')
    ensures es == [] || (|es| == 1 && s' == s.At(t, Done))
  {
    if es != [] {
      var s1 := Step(s, es[0]).value;
      assert s1 == s.At(t, Done);
      DoneEnds(s1, t, es[1..], s');
    }
  }

  // ----- A transfer -----

  // An uninterrupted transfer, however it ends, leaves the backend and the
  // other tasks as they were, and is dropped only under a cancelled token.
  lemma {:induction false} TransferAlone(s: World, t: Task, es: seq<Event>, s': World)
    requires Idle(s) && t < |s.tasks| && s.tasks[t] == Opened
    requires Solo(es, t) && Run(s, es) == Some(s') && t < |s'.tasks| && s'.tasks[t].Done?
    ensures s' == s.At(t, Done)
    ensures es != [] && Last(es).EndTransfer? && (Last(es).wasCancelled ==> !Live(s))
  {
    var s1 := RunHead(s, es, s');
    assert es[0].op == BeginTransfer && s1.tasks[t] == Transferring(s.b.token);
    var s2 := RunHead(s1, es[1..], s');
    assert es[1..][0].op.EndTransfer?;
    DoneEnds(s2, t, es[1..][1..], s');
  }

  // Each way to end it is possible: with a live token only by itself.
  lemma TransferCanEnd(s: World, t: Task, wasCancelled: bool) returns (es: seq<Event>)
    requires Idle(s) && t < |s.tasks| && s.tasks[t] == Opened && (wasCancelled ==> !Live(s))
    ensures Solo(es, t) && NeverLingers(s, es) && Run(s, es) == Some(s.At(t, Done))
    ensures es != [] && Last(es) == EndTransfer(wasCancelled)
  {
    var begin, end := Event(BeginTransfer, t, false), Event(EndTransfer(wasCancelled), t, false);
    var s1 := Step(s, begin).value;
    var s2 := Step(s1, end).value;
    assert s2.tasks == s.tasks[t := Done] && s2.readers == s.readers;
    RunCons(s1, end, []);
    RunCons(s, begin, [end]);
    assert [end] + [] == [end] && [begin] + [end] == [begin, end];
    es := [begin, end];
  }

  // ----- Under a cancelled token -----

  // The attempt has failed: the backend is Closed, and one retry is spawned or
  // the retry waits for its next try, if it has one.
  ghost predicate DropEnded(base: World, s: World, t: Task, kind: Kind) {
    && t < |base.tasks| && s.b.status == Closed && s.readers == {} && s.writer.None?
    && match kind
       case Attempt => s.tasks == base.tasks[t := Done] + [RetrySpawned]
       case Retry(left) =>
         s.tasks == base.tasks[t := if left <= 1 then Done else RetryWaiting(left - 1)] && !s.b.retrying
  }

  ghost predicate DropUnderWay(base: World, s: World, t: Task, kind: Kind, late: set<Task>) {
    && t < |base.tasks| && t < |s.tasks| && s.tasks == base.tasks[t := s.tasks[t]] && s.readers == {t} && s.writer.None?
    && s.tasks[t].Trying? && s.tasks[t].kind == kind && s.tasks[t].token == s.b.token && !Live(s)
    && (s.tasks[t].phase != Locking ==> t in late)
  }

  lemma DropStep(base: World, s: World, t: Task, kind: Kind, late: set<Task>, e: Event)
    requires DropUnderWay(base, s, t, kind, late) && Step(s, e).Some? && e.t == t && !e.fine && GroupOf(e.op) != Adding
    requires !((e.op.DialEnd? || e.op.StreamEnd?) && e.t in late)
    ensures var s' := Step(s, e).value;
      DropUnderWay(base, s', t, kind, Late(s, e, late)) || DropEnded(base, s', t, kind)
  {
  }

  lemma {:induction false} DropRuns(base: World, s: World, t: Task, kind: Kind, late: set<Task>,
                                    es: seq<Event>, s': World)
    requires DropUnderWay(base, s, t, kind, late) && Prompt(s, es, late)
    requires Solo(es, t) && Within(es) && Run(s, es) == Some(s') && t < |s'.tasks|
    requires !(s'.tasks[t].Trying? && s'.tasks[t].kind == kind)
    ensures DropEnded(base, s', t, kind)
    decreases |es|
  {
    if es != [] {
      DropStep(base, s, t, kind, late, es[0]);
      var s1 := Step(s, es[0]).value;
      if s1.tasks[t].Trying? {
        DropRuns(base, s1, t, kind, Late(s, es[0], late), es[1..], s');
      } else if |es| > 1 {
        AfterAttempt(s1, t, es[1]);
      }
    }
  }

  // Under a cancelled token an uninterrupted attempt, or retry, always fails,
  // unless the network answers within one poll.
  lemma {:induction false} CancelledAttemptFails(s: World, t: Task, es: seq<Event>, s': World)
    requires Idle(s) && !Live(s) && t < |s.tasks| && s.tasks[t] == Picked && Prompt(s, es, {})
    requires Solo(es, t) && Within(es) && Run(s, es) == Some(s') && t < |s'.tasks| && s'.tasks[t] in {Opened, Done}
    ensures DropEnded(s, s', t, Attempt)
  {
    assert es[0].op == BeginAttempt;
    DropRuns(s, Step(s, es[0]).value, t, Attempt, {}, es[1..], s');
  }

  lemma {:induction false} CancelledRetryFails(s: World, t: Task, es: seq<Event>, s': World)
    requires Idle(s) && !Live(s) && s.b.RetryBegins() && t < |s.tasks| && s.tasks[t].RetryWaiting? && Prompt(s, es, {})
    requires es != [] && Solo(es, t) && Within(es[1..]) && Run(s, es) == Some(s')
    requires t < |s'.tasks| && !InRetry(s'.tasks[t])
    ensures DropEnded(s, s', t, Retry(s.tasks[t].left))
  {
    var s2 := RetryToAttempt(s, t, es, s');
    PromptTail(s, es, Step(s, es[0]).value, s2);
    var rest := es[2..];
    AfterTwo(es, t);
    RetryDrops(s, s2, t, s.tasks[t].left, rest, s');
  }

  lemma {:induction false} RetryDrops(s: World, s2: World, t: Task, left: nat, rest: seq<Event>, s': World)
    requires !Live(s) && AttemptUnderWay(s, s2, t, Retry(left)) && s2.tasks[t].phase == Locking && Prompt(s2, rest, {})
    requires Solo(rest, t) && Within(rest) && Run(s2, rest) == Some(s') && t < |s'.tasks| && !InRetry(s'.tasks[t])
    ensures DropEnded(s, s', t, Retry(left))
  {
    DropRuns(s, s2, t, Retry(left), {}, rest, s');
  }

  // Events outside of a connection attempt begin no wait.
  lemma {:induction false} PromptTail(s: World, es: seq<Event>, s1: World, s2: World)
    requires |es| > 1 && Prompt(s, es, {}) && Step(s, es[0]) == Some(s1) && Step(s1, es[1]) == Some(s2)
    requires es[0].op == RetryCheck && es[1].op == RetryReset
    ensures Prompt(s2, es[2..], {})
  {
    assert Late(s, es[0], {}) == {} && Prompt(s1, es[1..], {});
    assert Late(s1, es[1], {}) == {} && es[1..][1..] == es[2..];
  }

  // ----- Administrator requests -----

  // A task that is done has no more events.
  lemma {:induction false} DoneEnds(s: World, t: Task, es: seq<Event>, s': World)
    requires t < |s.tasks| && s.tasks[t].Done? && Solo(es, t) && Run(s, es) == Some(s')
    ensures es == [] && s' == s
  {
  }

  // An uninterrupted reset leaves the status and the protocol, and gives a
  // disconnected client and a token that nothing has cancelled.
  lemma {:induction false} ResetAlone(s: World, t: Task, es: seq<Event>, s': World)
    requires Idle(s) && TokensKnown(s) && t < |s.tasks| && s.tasks[t] == ResetCancelling
    requires Solo(es, t) && Run(s, es) == Some(s') && t < |s'.tasks| && s'.tasks[t].Done?
    ensures s'.tasks == s.tasks[t := Done] && s'.CanWrite()
    ensures s'.b.status == s.b.status && s'.b.protocol == s.b.protocol && s'.b.client == s.b.client
    ensures s'.b.Current() == NotConnected && Live(s') && s.b.token in s'.b.cancelled && !s'.b.retrying
  {
    var s1 := RunHead(s, es, s');
    assert es[0].op == ResetCancel;
    ResetGoesOn(s1, t, es[1..], s');
  }

  lemma {:induction false} ResetGoesOn(s: World, t: Task, es: seq<Event>, s': World)
    requires t < |s.tasks| && s.tasks[t] == ResetClearing && s.readers == {t} && s.writer.None? && TokensKnown(s)
    requires Solo(es, t) && Run(s, es) == Some(s') && t < |s'.tasks| && s'.tasks[t].Done?
    ensures s'.tasks == s.tasks[t := Done] && s'.CanWrite()
    ensures s'.b.status == s.b.status && s'.b.protocol == s.b.protocol && s'.b.client == s.b.client
    ensures s'.b.Current() == NotConnected && Live(s') && s.b.cancelled == s'.b.cancelled && !s'.b.retrying
  {
    var s1 := RunHead(s, es, s');
    assert es[0].op == ResetClear;
    ResetRenews(s1, t, es[1..], s');
  }

  lemma {:induction false} ResetRenews(s: World, t: Task, es: seq<Event>, s': World)
    requires t < |s.tasks| && s.tasks[t] == ResetRenewing && s.CanWrite() && TokensKnown(s)
    requires Solo(es, t) && Run(s, es) == Some(s') && t < |s'.tasks| && s'.tasks[t].Done?
    ensures s'.tasks == s.tasks[t := Done] && s'.b == s.b.Renew() && Live(s') && s'.CanWrite()
  {
    var s1 := RunHead(s, es, s');
    assert es[0].op == ResetRenew;
    DoneEnds(s1, t, es[1..], s');
  }

  // An uninterrupted switch of protocol gives the other protocol; and a new,
  // disconnected client and a live token if and only if its client builds,
  // which is when it goes on to clear that client.
  lemma {:induction false} SwitchProtocolAlone(s: World, t: Task, es: seq<Event>, s': World)
    requires Idle(s) && TokensKnown(s) && t < |s.tasks| && s.tasks[t] == ProtocolCancelling
    requires Solo(es, t) && Run(s, es) == Some(s') && t < |s'.tasks| && s'.tasks[t].Done?
    ensures |es| > 1 && s'.tasks == s.tasks[t := Done] && s'.CanWrite()
    ensures s'.b.status == s.b.status && s'.b.protocol != s.b.protocol
    ensures es[1].op.ProtocolWrite? && var built := es[1].op.built;
      && Last(es) == (if built then ProtocolClear else ProtocolWrite(false))
      && (s'.b.client != s.b.client <==> built) && (Live(s') <==> built) && (built ==> !s'.b.retrying)
      && s'.b.Current() == if built then NotConnected else s.b.Current()
  {
    var s1 := RunHead(s, es, s');
    assert es[0].op == ProtocolCancel;
    ProtocolGoesOn(s1, t, es[1..], s');
    assert Last(es[1..]) == Last(es);
  }

  lemma {:induction false} ProtocolGoesOn(s: World, t: Task, es: seq<Event>, s': World)
    requires t < |s.tasks| && s.tasks[t] == ProtocolWriting && s.CanWrite() && TokensKnown(s) && !Live(s)
    requires Solo(es, t) && Run(s, es) == Some(s') && t < |s'.tasks| && s'.tasks[t].Done?
    ensures es != [] && s'.tasks == s.tasks[t := Done] && s'.CanWrite()
    ensures s'.b.status == s.b.status && s'.b.protocol != s.b.protocol
    ensures es[0].op.ProtocolWrite? && var built := es[0].op.built;
      && Last(es) == (if built then ProtocolClear else ProtocolWrite(false))
      && (s'.b.client != s.b.client <==> built) && (Live(s') <==> built) && (built ==> !s'.b.retrying)
      && s'.b.Current() == if built then NotConnected else s.b.Current()
  {
    var s1 := RunHead(s, es, s');
    if es[0].op.built {
      ProtocolClears(s1, t, es[1..], s');
      assert Last(es[1..]) == Last(es);
    } else {
      DoneEnds(s1, t, es[1..], s');
    }
  }

  lemma {:induction false} ProtocolClears(s: World, t: Task, es: seq<Event>, s': World)
    requires t < |s.tasks| && s.tasks[t] == ProtocolClearing && s.readers == {}
    requires Solo(es, t) && Run(s, es) == Some(s') && t < |s'.tasks| && s'.tasks[t].Done?
    ensures es != [] && Last(es) == ProtocolClear && s'.tasks == s.tasks[t := Done] && s'.CanWrite()
    ensures s'.b == s.b.ResetClient()
  {
    var s1 := RunHead(s, es, s');
    assert es[0].op == ProtocolClear;
    DoneEnds(s1, t, es[1..], s');
  }

  // An uninterrupted switch of status opens a ForceClosed backend, with a live
  // token and one task to retry it, and closes any other, with its token
  // cancelled.
  lemma {:induction false} SwitchStatusAlone(s: World, t: Task, es: seq<Event>, s': World)
    requires Idle(s) && TokensKnown(s) && t < |s.tasks| && s.tasks[t] == SwitchCancelling
    requires Solo(es, t) && Run(s, es) == Some(s') && t < |s'.tasks| && s'.tasks[t].Done?
    ensures s'.CanWrite() && s'.b.Current() == s.b.Current() && s'.b.protocol == s.b.protocol
    ensures var reopens := s.b.status == ForceClosed;
      && s'.b.status == (if reopens then Unknown else ForceClosed)
      && (Live(s') <==> reopens) && (reopens ==> !s'.b.retrying)
      && s'.tasks == s.tasks[t := Done] + if reopens then [RetrySpawned] else []
  {
    var s1 := RunHead(s, es, s');
    assert es[0].op == SwitchCancel;
    SwitchGoesOn(s1, t, es[1..], s');
  }

  lemma {:induction false} SwitchGoesOn(s: World, t: Task, es: seq<Event>, s': World)
    requires t < |s.tasks| && s.tasks[t] == SwitchReading && s.CanWrite() && TokensKnown(s) && !Live(s)
    requires Solo(es, t) && Run(s, es) == Some(s') && t < |s'.tasks| && s'.tasks[t].Done?
    ensures s'.CanWrite() && s'.b.Current() == s.b.Current() && s'.b.protocol == s.b.protocol
    ensures var reopens := s.b.status == ForceClosed;
      && s'.b.status == (if reopens then Unknown else ForceClosed)
      && (Live(s') <==> reopens) && (reopens ==> !s'.b.retrying)
      && s'.tasks == s.tasks[t := Done] + if reopens then [RetrySpawned] else []
  {
    var s1 := RunHead(s, es, s');
    assert es[0].op == SwitchToggle;
    if s.b.status == ForceClosed {
      var s2 := RunHead(s1, es[1..], s');
      assert es[1..][0].op == SwitchRenew;
      DoneEnds(s2, t, es[1..][1..], s');
    } else {
      DoneEnds(s1, t, es[1..], s');
    }
  }

  // ----- A retry_forever task whose dials all fail -----

  predicate DialsFail(es: seq<Event>) {
    forall i :: 0 <= i < |es| ==> es[i].op.DialEnd? ==> !es[i].op.ok
  }

  // Task t is in retry_forever, or done with it, and has the backend to itself.
  ghost predicate Failing(s: World, t: Task) {
    && t < |s.tasks| && Live(s) && s.writer.None? && s.b.status in {Closed, Unknown}
    && s.readers == (if InRetry(s.tasks[t]) then {t} else {})
    && s.b.retrying == InRetry(s.tasks[t])
    && s.holders == (if Lifecycle.Dials(s.tasks[t]) then map[s.b.client := t] else map[])
    && match s.tasks[t]
       case Done => s.b.status == Closed
       case RetrySpawned => true
       case RetryWaiting(left) => left > 0
       case Resetting(left) => left > 0
       case Trying(Retry(left), phase, token, client) =>
         left > 0 && phase != Streaming && token == s.b.token && client == s.b.client && s.b.Current() == NotConnected
       case _ => false
  }

  lemma FailingTry(s: World, t: Task, e: Event)
    requires Failing(s, t) && s.tasks[t].Trying? && Step(s, e).Some? && e.t == t && !e.fine && GroupOf(e.op) != Adding
    requires e.op.DialEnd? ==> !e.op.ok
    ensures Failing(Step(s, e).value, t) && Budget(Step(s, e).value, t) == Budget(s, t) && !Retries(e, t)
  {
    AttemptOps(s, t, e);
  }

  lemma FailingStep(s: World, t: Task, e: Event)
    requires Failing(s, t) && Step(s, e).Some? && e.t == t && !e.fine && GroupOf(e.op) != Adding
    requires e.op.DialEnd? ==> !e.op.ok
    ensures Failing(Step(s, e).value, t)
    ensures Budget(Step(s, e).value, t) + (if Retries(e, t) then 1 else 0) == Budget(s, t)
  {
    if s.tasks[t].Trying? {
      FailingTry(s, t, e);
    }
  }

  lemma {:induction false} FailingRuns(s: World, t: Task, es: seq<Event>, s': World)
    requires Failing(s, t) && Solo(es, t) && DialsFail(es) && Run(s, es) == Some(s')
    ensures Failing(s', t) && RetryCount(es, t) + Budget(s', t) == Budget(s, t)
    decreases |es|
  {
    if es != [] {
      FailingStep(s, t, es[0]);
      FailingRuns(Step(s, es[0]).value, t, es[1..], s');
    }
  }

  // Uninterrupted, and with every dial failing, it is done exactly when it has
  // made max_retries attempts, or 2^32 - 1 when max_retries is 0, and then it
  // leaves the backend Closed.
  lemma {:induction false} RetriesAreAllMade(s: World, t: Task, es: seq<Event>, s': World)
    requires Idle(s) && Live(s) && s.b.RetryBegins() && t < |s.tasks| && s.tasks[t] == RetrySpawned
    requires Solo(es, t) && DialsFail(es) && Run(s, es) == Some(s') && t < |s'.tasks|
    ensures !InRetry(s'.tasks[t]) ==>
      (s'.tasks[t].Done? <==> RetryCount(es, t) == if s.maxRetries == 0 then 0xFFFF_FFFF else s.maxRetries)
    ensures s'.tasks[t].Done? ==> s'.b.status == Closed
  {
    IdleHoldsNothing(s);
    FailingRuns(s, t, es, s');
  }

  // ----- Such runs exist -----

  function FailingRound(t: Task): seq<Event> {
    [Event(RetryCheck, t, false), Event(RetryReset, t, false),
     Event(LockClient(false), t, false), Event(DialEnd(false, false), t, false)]
  }

  lemma RetryGoesOn(s: World, t: Task) returns (s1: World, s2: World)
    requires Live(s) && s.b.RetryBegins() && s.CanRead() && s.holders == map[]
    requires t < |s.tasks| && s.tasks[t].RetryWaiting?
    ensures Step(s, Event(RetryCheck, t, false)) == Some(s1) && Step(s1, Event(RetryReset, t, false)) == Some(s2)
    ensures s2.tasks == s.tasks[t := Trying(Retry(s.tasks[t].left), Locking, s2.b.token, s2.b.client)]
    ensures s2.b.Current() == NotConnected && s2.holders == map[] && Live(s2)
    ensures s2.readers == s.readers + {t} && s2.writer == s.writer && s2.maxRetries == s.maxRetries
  {
    s1 := Step(s, Event(RetryCheck, t, false)).value;
    s2 := Step(s1, Event(RetryReset, t, false)).value;
  }

  lemma RoundFails(s: World, t: Task) returns (s': World)
    requires Idle(s) && Live(s) && s.b.RetryBegins() && t < |s.tasks| && s.tasks[t].RetryWaiting?
    ensures var left := s.tasks[t].left;
      && Run(s, FailingRound(t)) == Some(s') && NeverLingers(s, FailingRound(t))
      && Idle(s') && Live(s') && s'.b.RetryBegins() && s'.b.status == Closed
      && s'.tasks == s.tasks[t := if left <= 1 then Done else RetryWaiting(left - 1)]
  {
    IdleHoldsNothing(s);
    var es := FailingRound(t);
    var s1, s2 := RetryGoesOn(s, t);
    var s3 := Step(s2, es[2]).value;
    s' := Step(s3, es[3]).value;
    RunFour(s, es[0], s1, es[1], s2, es[2], s3, es[3], s');
    RunKeepsLockInv(s, es);
  }

  lemma {:induction false} RunKeepsLockInv(s: World, es: seq<Event>)
    requires LockInv(s) && Run(s, es).Some?
    ensures LockInv(Run(s, es).value)
    decreases |es|
  {
    if es != [] {
      LockInvStep(s, es[0]);
      RunKeepsLockInv(Step(s, es[0]).value, es[1..]);
    }
  }

  lemma {:induction false} RunFour(s: World, e1: Event, s1: World, e2: Event, s2: World,
                                   e3: Event, s3: World, e4: Event, s4: World)
    requires Step(s, e1) == Some(s1) && Step(s1, e2) == Some(s2) && Step(s2, e3) == Some(s3) && Step(s3, e4) == Some(s4)
    requires !Lingers(s, e1) && !Lingers(s1, e2) && !Lingers(s2, e3) && !Lingers(s3, e4)
    ensures Run(s, [e1, e2, e3, e4]) == Some(s4) && NeverLingers(s, [e1, e2, e3, e4])
  {
    RunCons(s3, e4, []);
    RunCons(s2, e3, [e4]);
    RunCons(s1, e2, [e3, e4]);
    RunCons(s, e1, [e2, e3, e4]);
    assert [e4] + [] == [e4] && [e3] + [e4] == [e3, e4] && [e2] + [e3, e4] == [e2, e3, e4];
    assert [e1] + [e2, e3, e4] == [e1, e2, e3, e4];
  }

  lemma RoundJoins(t: Task, rest: seq<Event>)
    requires Solo(rest, t) && DialsFail(rest)
    ensures Solo(FailingRound(t) + rest, t) && DialsFail(FailingRound(t) + rest)
  {
  }

  lemma {:induction false} RoundsRunOut(s: World, t: Task, left: nat) returns (es: seq<Event>, s': World)
    requires Idle(s) && Live(s) && s.b.RetryBegins() && t < |s.tasks| && s.tasks[t] == RetryWaiting(left) && left > 0
    ensures Solo(es, t) && DialsFail(es) && NeverLingers(s, es) && Run(s, es) == Some(s')
    ensures s'.tasks == s.tasks[t := Done]
    decreases left
  {
    var s1 := RoundFails(s, t);
    var rest: seq<Event> := [];
    s' := s1;
    if left > 1 {
      rest, s' := RoundsRunOut(s1, t, left - 1);
    }
    es := FailingRound(t) + rest;
    RoundJoins(t, rest);
    RunSplit(s, FailingRound(t), rest);
    LingersSplit(s, FailingRound(t), rest);
  }

  // A task spawned for a backend that is down can come to its end like that.
  lemma RetriesRunOut(s: World, t: Task) returns (es: seq<Event>, s': World)
    requires Idle(s) && Live(s) && s.b.RetryBegins() && t < |s.tasks| && s.tasks[t] == RetrySpawned
    ensures Solo(es, t) && DialsFail(es) && NeverLingers(s, es) && Run(s, es) == Some(s')
    ensures s'.tasks == s.tasks[t := Done]
  {
    var start := Event(RetryStart, t, false);
    var s1 := Step(s, start).value;
    LockInvStep(s, start);
    es, s' := RoundsRunOut(s1, t, s.Limit());
    RunCons(s, start, es);
    es := [start] + es;
  }

  lemma {:induction false} RunThree(s: World, e1: Event, s1: World, e2: Event, s2: World, e3: Event, s3: World)
    requires Step(s, e1) == Some(s1) && Step(s1, e2) == Some(s2) && Step(s2, e3) == Some(s3)
    requires !Lingers(s, e1) && !Lingers(s1, e2) && !Lingers(s2, e3)
    ensures Run(s, [e1, e2, e3]) == Some(s3) && NeverLingers(s, [e1, e2, e3])
  {
    RunCons(s2, e3, []);
    RunCons(s1, e2, [e3]);
    RunCons(s, e1, [e2, e3]);
    assert [e3] + [] == [e3] && [e2] + [e3] == [e2, e3] && [e1] + [e2, e3] == [e1, e2, e3];
  }

  function DialAndStream(t: Task, streamed: bool): seq<Event> {
    [Event(LockClient(false), t, false), Event(DialEnd(true, false), t, false), Event(StreamEnd(streamed), t, false)]
  }

  lemma {:induction false} BeforeDialAndStream(es: seq<Event>, t: Task, streamed: bool)
    requires Solo(es, t)
    ensures var all := es + DialAndStream(t, streamed);
      Solo(all, t) && Last(all) == StreamEnd(streamed) && (Within(es) ==> Within(all))
  {
  }

  lemma LockedEnds(s: World, t: Task, streamed: bool) returns (s': World)
    requires Live(s) && t < |s.tasks| && s.tasks[t].Trying? && s.tasks[t].phase == Locking
    requires s.tasks[t].token == s.b.token && s.holders == map[] && s.b.ClientOf(s.tasks[t].client) == NotConnected
    ensures Run(s, DialAndStream(t, streamed)) == Some(s') && NeverLingers(s, DialAndStream(t, streamed))
    ensures t < |s'.tasks| && match s.tasks[t].kind
      case Attempt => s'.tasks[t] in {Opened, Done}
      case Retry(_) => !InRetry(s'.tasks[t])
  {
    var es := DialAndStream(t, streamed);
    var s1 := Step(s, es[0]).value;
    var s2 := Step(s1, es[1]).value;
    s' := Step(s2, es[2]).value;
    RunThree(s, es[0], s1, es[1], s2, es[2], s');
  }

  // An attempt on a client that is not connected can end either way, and so
  // can a retry.
  lemma AttemptCanEnd(s: World, t: Task, streamed: bool) returns (es: seq<Event>, s': World)
    requires Idle(s) && Live(s) && t < |s.tasks| && s.tasks[t] == Picked && s.b.Current() == NotConnected
    ensures Solo(es, t) && Within(es) && NeverLingers(s, es) && Run(s, es) == Some(s') && es != []
    ensures Last(es) == StreamEnd(streamed)
    ensures t < |s'.tasks| && s'.tasks[t] in {Opened, Done}
  {
    IdleHoldsNothing(s);
    var begin := Event(BeginAttempt, t, false);
    s' := LockedEnds(Step(s, begin).value, t, streamed);
    RunCons(s, begin, DialAndStream(t, streamed));
    es := [begin] + DialAndStream(t, streamed);
    BeforeDialAndStream([begin], t, streamed);
  }

  lemma RetryCanEnd(s: World, t: Task, streamed: bool) returns (es: seq<Event>, s': World)
    requires Idle(s) && Live(s) && s.b.RetryBegins() && t < |s.tasks| && s.tasks[t].RetryWaiting?
    ensures es != [] && Solo(es, t) && Within(es[1..]) && NeverLingers(s, es) && Run(s, es) == Some(s')
    ensures Last(es) == StreamEnd(streamed)
    ensures t < |s'.tasks| && !InRetry(s'.tasks[t])
  {
    IdleHoldsNothing(s);
    var check, reset := Event(RetryCheck, t, false), Event(RetryReset, t, false);
    var s1, s2 := RetryGoesOn(s, t);
    s' := LockedEnds(s2, t, streamed);
    es := RunAfterTwo(s, check, s1, reset, s2, DialAndStream(t, streamed));
    RetryShape(t, streamed);
  }

  lemma {:induction false} RetryShape(t: Task, streamed: bool)
    ensures var es := [Event(RetryCheck, t, false), Event(RetryReset, t, false)] + DialAndStream(t, streamed);
      Solo(es, t) && Within(es[1..]) && Last(es) == StreamEnd(streamed)
  {
    var check, reset := Event(RetryCheck, t, false), Event(RetryReset, t, false);
    BeforeDialAndStream([check, reset], t, streamed);
    BeforeDialAndStream([reset], t, streamed);
    assert ([check, reset] + DialAndStream(t, streamed))[1..] == [reset] + DialAndStream(t, streamed);
  }

  lemma {:induction false} RunAfterTwo(s: World, e1: Event, s1: World, e2: Event, s2: World, rest: seq<Event>)
    returns (es: seq<Event>)
    requires Step(s, e1) == Some(s1) && Step(s1, e2) == Some(s2) && !Lingers(s, e1) && !Lingers(s1, e2)
    requires Run(s2, rest).Some? && NeverLingers(s2, rest)
    ensures es == [e1, e2] + rest && Run(s, es) == Run(s2, rest) && NeverLingers(s, es)
  {
    RunCons(s1, e2, rest);
    RunCons(s, e1, [e2] + rest);
    es := [e1] + ([e2] + rest);
  }
}
