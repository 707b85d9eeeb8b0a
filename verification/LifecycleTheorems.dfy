// Tokens, cancelling and closing of a backend, in every run of the machine in
// `Lifecycle`.
module LifecycleTheorems {
  import opened Wrappers
  import opened Backends
  import opened Lifecycle
  import opened Runs

  // ----- Tokens and clients -----

  predicate InFlight(pc: Pc) {
    pc.Trying? || pc.Transferring?
  }

  // At any interleaving, an operation in flight holds a read guard, and uses
  // the current token and the current client.
  lemma InFlightIsCurrent(s: World, t: Task)
    requires Reachable(s) && t < |s.tasks| && InFlight(s.tasks[t])
    ensures t in s.readers && s.writer.None?
    ensures s.tasks[t].token == s.b.token
    ensures s.tasks[t].Trying? ==> s.tasks[t].client == s.b.client
  {
    ReachableInv(s);
  }

  // A token, a client or a protocol is replaced only when nothing that began
  // under the old one is left.
  lemma ReplacedOnlyWhenIdle(s: World, e: Event, s': World)
    requires Reachable(s) && Step(s, e) == Some(s')
    requires s'.b.token != s.b.token || s'.b.client != s.b.client || s'.b.protocol != s.b.protocol
    ensures forall t: Task :: t < |s.tasks| ==> !HoldsRead(s.tasks[t]) && !HoldsWrite(s.tasks[t])
  {
    ReachableInv(s);
    if s'.b.protocol != s.b.protocol {
      if !e.op.ProtocolWrite? {
        OthersKeepProtocol(s, e);
      }
    } else {
      ReplacedOnlyWhenIdleInv(s, e, s');
    }
  }

  // A renewed token has not been cancelled. A switch of protocol whose client
  // fails to build renews nothing, and leaves a cancelled token cancelled.
  lemma RenewedTokenIsLive(s: World, e: Event, s': World)
    requires Reachable(s) && Step(s, e) == Some(s')
    requires e.op in {SwitchRenew, ResetRenew, ProtocolWrite(true), ProtocolWrite(false)}
    ensures s'.b.token !in s'.b.cancelled <==> e.op != ProtocolWrite(false) || s.b.token !in s.b.cancelled
  {
    ReachableInv(s);
  }

  // The failed switches of protocol since the last one that built its client.
  function FailedSwitches(es: seq<Event>): nat {
    if es == [] then 0 else FailedAfter(FailedSwitches(es[..|es| - 1]), es[|es| - 1].op)
  }

  function FailedAfter(failed: nat, op: Op): nat {
    match op
    case ProtocolWrite(built) => if built then 0 else failed + 1
    case _ => failed
  }

  lemma ShownNext(s: World, e: Event, failed: nat)
    requires Step(s, e).Some? && (s.b.shown == s.b.protocol <==> failed % 2 == 0)
    ensures var b := Step(s, e).value.b; b.shown == b.protocol <==> FailedAfter(failed, e.op) % 2 == 0
  {
    if !e.op.ProtocolWrite? {
      OthersKeepProtocol(s, e);
    }
  }

  lemma OthersKeepProtocol(s: World, e: Event)
    requires Step(s, e).Some? && !e.op.ProtocolWrite?
    ensures Step(s, e).value.b.protocol == s.b.protocol && Step(s, e).value.b.shown == s.b.shown
  {
    if GroupOf(e.op) in {Connecting, Landing, Ending} {
      ConnectKeepsProtocol(s, e);
    }
  }

  lemma ConnectKeepsProtocol(s: World, e: Event)
    requires Step(s, e).Some? && GroupOf(e.op) in {Connecting, Landing, Ending}
    ensures Step(s, e).value.b.protocol == s.b.protocol && Step(s, e).value.b.shown == s.b.shown
  {
  }

  // At any interleaving the metric shows the configured protocol if and only if
  // the switches that have failed since the last success are even in number.
  lemma {:induction false} ShownProtocol(status: Status, protocol: Protocol, maxRetries: nat, es: seq<Event>)
    requires Run(NewWorld(status, protocol, maxRetries), es).Some?
    ensures var b := Run(NewWorld(status, protocol, maxRetries), es).value.b;
      b.shown == b.protocol <==> FailedSwitches(es) % 2 == 0
    decreases |es|
  {
    if es != [] {
      var n := |es| - 1;
      var s := RunLast(NewWorld(status, protocol, maxRetries), es);
      ShownProtocol(status, protocol, maxRetries, es[..n]);
      ShownNext(s, es[n], FailedSwitches(es[..n]));
    }
  }

  // ----- Cancelling -----

  predicate Cancels(op: Op) {
    op.SwitchCancel? || op.ResetCancel? || op.ProtocolCancel?
  }

  // Task t is in an operation under the current token, which is cancelled.
  ghost predicate Doomed(s: World, t: Task) {
    t < |s.tasks| && InFlight(s.tasks[t]) && s.tasks[t].token == s.b.token && s.b.token in s.b.cancelled
  }

  predicate Acts(e: Event, t: Task) {
    e.t == t && GroupOf(e.op) != Adding
  }

  // While others act, the operation stays cancelled: its guard keeps the token.
  lemma DoomedStays(s: World, e: Event, t: Task)
    requires LockInv(s) && Doomed(s, t) && Step(s, e).Some? && !Acts(e, t)
    ensures Doomed(Step(s, e).value, t) && Step(s, e).value.tasks[t] == s.tasks[t]
  {
    OthersKeep(s, e, t);
    TokensStep(s, e);
    assert HoldsRead(s.tasks[t]);
    if Step(s, e).value.b.token != s.b.token {
      ReplacedOnlyWhenIdleInv(s, e, Step(s, e).value);
    }
  }

  // Its own step ends it, or is within the poll that will.
  lemma DoomedActs(s: World, e: Event, t: Task)
    requires LockInv(s) && Doomed(s, t) && Step(s, e).Some? && Acts(e, t)
    ensures t < |Step(s, e).value.tasks|
    ensures !InFlight(Step(s, e).value.tasks[t]) || (Lingers(s, e) && Doomed(Step(s, e).value, t) &&
      Step(s, e).value.tasks[t].Trying? && Step(s, e).value.tasks[t].phase != Locking)
  {
    TasksMove(s, e);
    if GroupOf(e.op) in {Connecting, Landing, Ending} {
      ConnectTokens(s, e);
    }
  }

  // The worlds of a run one after the other: task t's operation ends before
  // its second step.
  ghost predicate EndsWithin(s: World, es: seq<Event>, t: Task, steps: nat)
    decreases |es|
  {
    es == [] || Step(s, es[0]).None? ||
    var s' := Step(s, es[0]).value;
    if !Acts(es[0], t) then EndsWithin(s', es[1..], t, steps)
    else steps > 0 && (t < |s'.tasks| && InFlight(s'.tasks[t]) ==> EndsWithin(s', es[1..], t, steps - 1))
  }

  lemma {:induction false} DoomedEnds(s: World, es: seq<Event>, t: Task, late: set<Task>, steps: nat)
    requires LockInv(s) && Doomed(s, t) && Run(s, es).Some? && Prompt(s, es, late)
    requires steps == 2 || (steps == 1 && t in late && s.tasks[t].Trying? && s.tasks[t].phase != Locking)
    ensures EndsWithin(s, es, t, steps)
    decreases |es|
  {
    if es != [] {
      var e, s' := es[0], Step(s, es[0]).value;
      LockInvStep(s, e);
      if !Acts(e, t) {
        DoomedStays(s, e, t);
        DoomedEnds(s', es[1..], t, Late(s, e, late), steps);
      } else {
        DoomedActs(s, e, t);
        if InFlight(s'.tasks[t]) {
          DoomedEnds(s', es[1..], t, Late(s, e, late), 1);
        }
      }
    }
  }

  // One cancel reaches every operation in flight. Each can end at once; and in
  // every run that follows, unless the network answers within one poll, each
  // ends by its first step, or by its second when that is still the same poll.
  lemma {:induction false} CancelReachesAll(s: World, e: Event, t: Task, es: seq<Event>)
    requires Reachable(s) && Cancels(e.op) && Step(s, e).Some?
    requires t < |s.tasks| && InFlight(s.tasks[t])
    requires Run(Step(s, e).value, es).Some? && Prompt(Step(s, e).value, es, {})
    ensures var s' := Step(s, e).value;
      && s'.tasks[t] == s.tasks[t] && s.tasks[t].token in s'.b.cancelled
      && Step(s', Event(if s.tasks[t].Trying? then Abort else EndTransfer(true), t, false)).Some?
      && EndsWithin(s', es, t, 2)
  {
    ReachableInv(s);
    LockInvStep(s, e);
    CancelDooms(s, e, t);
    DoomedEnds(Step(s, e).value, es, t, {}, 2);
  }

  lemma CancelDooms(s: World, e: Event, t: Task)
    requires LockInv(s) && Cancels(e.op) && Step(s, e).Some? && t < |s.tasks| && InFlight(s.tasks[t])
    ensures var s' := Step(s, e).value;
      && Doomed(s', t) && s'.tasks[t] == s.tasks[t] && s.tasks[t].token in s'.b.cancelled
      && Step(s', Event(if s.tasks[t].Trying? then Abort else EndTransfer(true), t, false)).Some?
  {
    assert UsesCurrent(s, s.tasks[t]);
  }

  // ----- What stays down under a cancelled token -----

  predicate Renews(op: Op) {
    op in {SwitchRenew, ResetRenew, ProtocolWrite(true)}
  }

  // The token is cancelled, the backend is not up, and no retry has a result
  // to store, or a stream to wait for since before the token was cancelled.
  ghost predicate CutOff(s: World, late: set<Task>) {
    && s.b.token in s.b.cancelled && s.b.status != Normal
    && forall t: Task :: t < |s.tasks| ==> !Restoring(s.tasks[t], t in late)
  }

  predicate Restoring(pc: Pc, late: bool) {
    || (pc.Trying? && pc.kind.Retry? && pc.phase == Streaming && !late)
    || (pc.Settling? && pc.kind.Retry? && pc.ok)
  }

  ghost predicate CutOffMoves(s: World, s': World, t: Task, late: set<Task>) {
    t < |s'.tasks| && s'.b.status != Normal && !Restoring(s'.tasks[t], t in late)
  }

  lemma ConnectCutOff(s: World, e: Event, late: set<Task>)
    requires LockInv(s) && CutOff(s, late) && Step(s, e).Some? && GroupOf(e.op) in {Connecting, Landing, Ending}
    requires !((e.op.DialEnd? || e.op.StreamEnd?) && e.t in late)
    ensures CutOffMoves(s, Step(s, e).value, e.t, Late(s, e, late))
  {
    assert UsesCurrent(s, s.tasks[e.t]);
  }

  lemma OtherCutOff(s: World, e: Event, late: set<Task>)
    requires CutOff(s, late) && Step(s, e).Some? && GroupOf(e.op) in {Guarding, Settlement, Retrying}
    ensures CutOffMoves(s, Step(s, e).value, e.t, Late(s, e, late))
  {
  }

  lemma RenewalsRenew(s: World, e: Event)
    requires Step(s, e).Some? && !Renews(e.op)
    ensures Step(s, e).value.b.token == s.b.token
  {
    if GroupOf(e.op) in {Connecting, Landing, Ending} {
      ConnectTokens(s, e);
    }
  }

  lemma CutOffStep(s: World, e: Event, late: set<Task>)
    requires LockInv(s) && CutOff(s, late) && Step(s, e).Some? && !Renews(e.op)
    requires !((e.op.DialEnd? || e.op.StreamEnd?) && e.t in late)
    ensures CutOff(Step(s, e).value, Late(s, e, late))
  {
    TokensStep(s, e);
    RenewalsRenew(s, e);
    var s' := Step(s, e).value;
    if GroupOf(e.op) == Adding {
      assert forall t: Task :: t < |s.tasks| ==> s'.tasks[t] == s.tasks[t];
    } else {
      TasksMove(s, e);
      if GroupOf(e.op) in {Connecting, Landing, Ending} {
        ConnectCutOff(s, e, late);
      } else if GroupOf(e.op) in {Switching, Clearing} {
      } else {
        OtherCutOff(s, e, late);
      }
    }
  }

  // Then nothing but a renewal of the token lets it come back, at any
  // interleaving, unless the network answers within one poll.
  lemma {:induction false} CutOffStaysDown(s: World, es: seq<Event>, late: set<Task>)
    requires LockInv(s) && CutOff(s, late) && Run(s, es).Some? && Prompt(s, es, late)
    requires forall i :: 0 <= i < |es| ==> !Renews(es[i].op)
    ensures Run(s, es).value.b.status != Normal
    decreases |es|
  {
    if es != [] {
      LockInvStep(s, es[0]);
      CutOffStep(s, es[0], late);
      CutOffStaysDown(Step(s, es[0]).value, es[1..], Late(s, es[0], late));
    }
  }

  // A switch of protocol whose client fails to build, after its cancel, leaves
  // a backend that is down cut off.
  lemma {:induction false} FailedSwitchCutsOff(s: World, e: Event, s': World, es: seq<Event>)
    requires Reachable(s) && Step(s, e) == Some(s') && e.op == ProtocolWrite(false)
    requires s.b.token in s.b.cancelled && s.b.status != Normal
    requires Run(s', es).Some? && Prompt(s', es, {}) && forall i :: 0 <= i < |es| ==> !Renews(es[i].op)
    ensures Run(s', es).value.b.status != Normal
  {
    ReachableInv(s);
    LockInvStep(s, e);
    assert forall t: Task :: t < |s.tasks| ==> !HoldsRead(s.tasks[t]);
    CutOffStaysDown(s', es, {});
  }

  // ----- ForceClosed -----

  // A task that can still overwrite the status without reading it again.
  predicate MayOverwrite(pc: Pc) {
    pc.Picked? || pc.Trying? || pc.RetryChecking? || pc.RetryLoaded? || pc.Resetting? ||
    (pc.Settling? && !(pc.kind.Attempt? && pc.ok))
  }

  ghost predicate Quiescent(s: World) {
    s.b.status == ForceClosed && forall t: Task :: t < |s.tasks| ==> !MayOverwrite(s.tasks[t])
  }

  lemma QuiescentStep(s: World, e: Event)
    requires Quiescent(s) && Step(s, e).Some? && !Toggles(e)
    ensures Quiescent(Step(s, e).value) && !e.op.Pick?
  {
    if GroupOf(e.op) != Adding {
      TasksMove(s, e);
    }
  }

  // At any interleaving, a quiescent backend stays so and is never handed out
  // until an administrator toggles its status.
  lemma {:induction false} QuiescentStays(s: World, es: seq<Event>)
    requires Quiescent(s) && Run(s, es).Some? && ToggleFree(es)
    ensures Quiescent(Run(s, es).value)
    ensures forall i :: 0 <= i < |es| ==> !es[i].op.Pick?
    decreases |es|
  {
    if es != [] {
      QuiescentStep(s, es[0]);
      QuiescentStays(Step(s, es[0]).value, es[1..]);
      assert forall i :: 0 < i < |es| ==> es[i] == es[1..][i - 1];
    }
  }

  // A backend configured force_closed is handed out by no run without a toggle.
  lemma {:induction false} ConfiguredForceClosed(protocol: Protocol, maxRetries: nat, es: seq<Event>)
    requires ToggleFree(es) && Run(NewWorld(ForceClosed, protocol, maxRetries), es).Some?
    ensures Run(NewWorld(ForceClosed, protocol, maxRetries), es).value.b.status == ForceClosed
    ensures forall i :: 0 <= i < |es| ==> !es[i].op.Pick?
  {
    QuiescentStays(NewWorld(ForceClosed, protocol, maxRetries), es);
  }

  // The runs that overwrite a ForceClosed that is not quiescent.
  ghost predicate Overwrites(s: World, es: seq<Event>) {
    ToggleFree(es) && AwaitLevel(es) && NeverLingers(s, es) &&
    Run(s, es).Some? && Run(s, es).value.b.status != ForceClosed
  }

  lemma OverwriteAfter(s: World, e: Event, es: seq<Event>) returns (all: seq<Event>)
    requires !Toggles(e) && !e.fine && !Lingers(s, e) && Step(s, e).Some? && Overwrites(Step(s, e).value, es)
    ensures Overwrites(s, all)
  {
    RunCons(s, e, es);
    all := [e] + es;
  }

  // The client's mutex can always be had, at the cost of a failed dial.
  lemma BusyMutexOverwrites(s: World, c: nat) returns (es: seq<Event>)
    requires LockInv(s) && !s.MutexFree(c)
    ensures Overwrites(s, es)
  {
    var e := Event(DialEnd(false, false), s.holders[c], false);
    assert Step(s, e).value.b.status == Closed;
    es := OverwriteAfter(s, e, []);
  }

  lemma {:induction false} TryingOverwrites(s: World, t: Task) returns (es: seq<Event>)
    requires LockInv(s) && t < |s.tasks| && s.tasks[t].Trying?
    ensures Overwrites(s, es)
    decreases s.tasks[t].phase == Locking
  {
    var pc := s.tasks[t];
    if pc.token in s.b.cancelled {
      es := OverwriteAfter(s, Event(Abort, t, false), []);
      return;
    }
    match pc.phase {
      case Dialing => es := BusyMutexOverwrites(s, pc.client);
      case Streaming =>
        var e := Event(StreamEnd(false), t, false);
        assert Step(s, e).value.b.status == Closed;
        es := OverwriteAfter(s, e, []);
      case Locking =>
        if !s.MutexFree(pc.client) {
          es := BusyMutexOverwrites(s, pc.client);
        } else {
          var e := Event(LockClient(true), t, false);
          LockInvStep(s, e);
          var s' := Step(s, e).value;
          if s.b.ClientOf(pc.client).Poisoned? {
            assert s'.b.status == Closed;
            es := OverwriteAfter(s, e, []);
          } else {
            es := TryingOverwrites(s', t);
            es := OverwriteAfter(s, e, es);
          }
        }
    }
  }

  lemma ResettingOverwrites(s: World, t: Task) returns (es: seq<Event>)
    requires LockInv(s) && t < |s.tasks| && s.tasks[t].Resetting?
    ensures Overwrites(s, es)
  {
    if s.MutexFree(s.b.client) {
      var e := Event(RetryReset, t, false);
      LockInvStep(s, e);
      es := TryingOverwrites(Step(s, e).value, t);
      es := OverwriteAfter(s, e, es);
    } else {
      es := BusyMutexOverwrites(s, s.b.client);
    }
  }

  lemma PickedOverwrites(s: World, t: Task) returns (es: seq<Event>)
    requires LockInv(s) && t < |s.tasks| && s.tasks[t].Picked?
    ensures Overwrites(s, es)
    decreases s.writer.Some?
  {
    var e := if s.writer.Some? then Event(ProtocolClear, s.writer.value, false) else Event(BeginAttempt, t, false);
    LockInvStep(s, e);
    if s.writer.Some? {
      es := PickedOverwrites(Step(s, e).value, t);
    } else {
      es := TryingOverwrites(Step(s, e).value, t);
    }
    es := OverwriteAfter(s, e, es);
  }

  // A retry that has loaded the status goes on, unless another runs that
  // overwrites the status itself or is about to clear the flag.
  lemma CheckingOverwrites(s: World, t: Task) returns (es: seq<Event>)
    requires LockInv(s) && FlagHeld(s) && t < |s.tasks| && s.tasks[t].RetryChecking?
    ensures Overwrites(s, es)
  {
    if !s.b.retrying {
      es := FreeCheckingOverwrites(s, t);
    } else {
      var u: Task :| u < |s.tasks| && InRetry(s.tasks[u]);
      if s.tasks[u].Unflagging? {
        var e := Event(RetryUnflag, u, false);
        LockInvStep(s, e);
        es := FreeCheckingOverwrites(Step(s, e).value, t);
        es := OverwriteAfter(s, e, es);
      } else {
        es := TryOverwrites(s, u);
      }
    }
  }

  lemma FreeCheckingOverwrites(s: World, t: Task) returns (es: seq<Event>)
    requires LockInv(s) && !s.b.retrying && t < |s.tasks| && s.tasks[t].RetryChecking?
    ensures Overwrites(s, es)
  {
    var e := Event(RetryLoad, t, false);
    LockInvStep(s, e);
    es := ResettingOverwrites(Step(s, e).value, t);
    es := OverwriteAfter(s, e, es);
  }

  lemma PendingOverwrites(s: World, t: Task) returns (es: seq<Event>)
    requires LockInv(s) && FlagHeld(s) && t < |s.tasks| && MayOverwrite(s.tasks[t])
    ensures Overwrites(s, es)
  {
    if s.tasks[t].RetryChecking? {
      es := CheckingOverwrites(s, t);
    } else {
      es := TryOverwrites(s, t);
    }
  }

  lemma TryOverwrites(s: World, t: Task) returns (es: seq<Event>)
    requires LockInv(s) && t < |s.tasks| && MayOverwrite(s.tasks[t]) && !s.tasks[t].RetryChecking?
    ensures Overwrites(s, es)
  {
    match s.tasks[t] {
      case Picked => es := PickedOverwrites(s, t);
      case Resetting(_) => es := ResettingOverwrites(s, t);
      case RetryLoaded(_) =>
        var e := Event(RetryStore, t, false);
        LockInvStep(s, e);
        es := ResettingOverwrites(Step(s, e).value, t);
        es := OverwriteAfter(s, e, es);
      case Settling(_, _) =>
        es := OverwriteAfter(s, Event(Settle, t, false), []);
      case _ => es := TryingOverwrites(s, t);
    }
  }

  // Quiescence is exactly what keeps a reachable ForceClosed backend closed,
  // whether threads are preempted anywhere or only at awaits, with a network
  // that keeps every task waiting.
  lemma {:induction false} ForceClosedStaysIffQuiescent(s: World)
    requires Reachable(s) && s.b.status == ForceClosed
    ensures Quiescent(s) <==>
      forall es :: ToggleFree(es) && Run(s, es).Some? ==> Run(s, es).value.b.status == ForceClosed
    ensures Quiescent(s) <==>
      forall es :: ToggleFree(es) && AwaitLevel(es) && NeverLingers(s, es) && Run(s, es).Some? ==>
        Run(s, es).value.b.status == ForceClosed
  {
    ReachableInv(s);
    if Quiescent(s) {
      forall es | ToggleFree(es) && Run(s, es).Some?
        ensures Run(s, es).value.b.status == ForceClosed
      {
        QuiescentStays(s, es);
      }
    } else {
      var t: Task :| t < |s.tasks| && MayOverwrite(s.tasks[t]);
      var es := PendingOverwrites(s, t);
    }
  }
}
