// Runs of the machine in `Lifecycle`, and what every one of them keeps.
module Runs {
  import opened Wrappers
  import opened Connector
  import opened Backends
  import opened Lifecycle

  // ----- Composing runs -----

  lemma {:induction false} RunCons(s: World, e: Event, es: seq<Event>)
    requires Step(s, e).Some?
    ensures Run(s, [e] + es) == Run(Step(s, e).value, es)
    ensures NeverLingers(s, [e] + es) <==> !Lingers(s, e) && NeverLingers(Step(s, e).value, es)
  {
    assert ([e] + es)[1..] == es;
  }

  lemma {:induction false} RunPrefix(s: World, es: seq<Event>, n: nat)
    requires n <= |es| && Run(s, es).Some?
    ensures Run(s, es[..n]).Some?
    decreases n
  {
    if n > 0 {
      assert es[..n][1..] == es[1..][..n - 1];
      RunPrefix(Step(s, es[0]).value, es[1..], n - 1);
    }
  }

  // The last step of a run.
  lemma {:induction false} RunLast(s: World, es: seq<Event>) returns (s1: World)
    requires es != [] && Run(s, es).Some?
    ensures Run(s, es[..|es| - 1]) == Some(s1) && Step(s1, es[|es| - 1]) == Run(s, es)
  {
    var n := |es| - 1;
    RunPrefix(s, es, n);
    s1 := Run(s, es[..n]).value;
    RunSplit(s, es[..n], [es[n]]);
    assert es[..n] + [es[n]] == es && [es[n]] + [] == [es[n]];
    assert [es[n]][1..] == [];
  }

  lemma {:induction false} LingersJoin(s: World, es: seq<Event>, es': seq<Event>, s': World)
    requires es != [] && Step(s, es[0]) == Some(s') && !Lingers(s, es[0]) && NeverLingers(s', es[1..] + es')
    ensures NeverLingers(s, es + es')
  {
    assert (es + es')[1..] == es[1..] + es';
  }

  lemma {:induction false} LingersSplit(s: World, es: seq<Event>, es': seq<Event>)
    requires Run(s, es).Some? && NeverLingers(s, es) && NeverLingers(Run(s, es).value, es')
    ensures NeverLingers(s, es + es')
    decreases |es|
  {
    if es == [] {
      assert es + es' == es';
    } else {
      var s' := Step(s, es[0]).value;
      LingersSplit(s', es[1..], es');
      LingersJoin(s, es, es', s');
    }
  }

  // A world that a run leads to in which no wait is cut short by an answer
  // within the same poll.
  ghost predicate Occurs(s: World) {
    exists status, protocol, maxRetries: nat, es ::
      NeverLingers(NewWorld(status, protocol, maxRetries), es) &&
        Run(NewWorld(status, protocol, maxRetries), es) == Some(s)
  }

  lemma NewOccurs(status: Status, protocol: Protocol, maxRetries: nat) returns (s: World)
    ensures s == NewWorld(status, protocol, maxRetries) && Occurs(s)
  {
    s := NewWorld(status, protocol, maxRetries);
    assert NeverLingers(s, []) && Run(s, []) == Some(s);
  }

  lemma OccurStep(s: World, e: Event) returns (s': World)
    requires Occurs(s) && Step(s, e).Some? && !Lingers(s, e)
    ensures Step(s, e) == Some(s') && Occurs(s')
  {
    s' := Step(s, e).value;
    var status, protocol, maxRetries: nat, es :|
      NeverLingers(NewWorld(status, protocol, maxRetries), es) &&
        Run(NewWorld(status, protocol, maxRetries), es) == Some(s);
    var start := NewWorld(status, protocol, maxRetries);
    RunCons(s, e, []);
    assert [e] + [] == [e];
    RunSplit(start, es, [e]);
    LingersSplit(start, es, [e]);
    assert NeverLingers(start, es + [e]) && Run(start, es + [e]) == Some(s');
  }

  // New operations can begin without being dropped.
  predicate Live(s: World) {
    s.b.token !in s.b.cancelled
  }

  // The store of an administrator's status switch.
  predicate Toggles(e: Event) {
    (e.op.SwitchToggle? && !e.fine) || e.op.SwitchStore?
  }

  predicate ToggleFree(es: seq<Event>) {
    forall i :: 0 <= i < |es| ==> !Toggles(es[i])
  }

  // ----- How a step moves the tasks -----

  // A step moves one task, and may spawn a retry.
  ghost predicate MovesOne(s: World, s': World, t: Task) {
    t < |s.tasks| && t < |s'.tasks| &&
    (s'.tasks == s.tasks[t := s'.tasks[t]] || s'.tasks == s.tasks[t := s'.tasks[t]] + [RetrySpawned])
  }

  lemma OtherMovesOne(s: World, e: Event)
    requires Step(s, e).Some? && GroupOf(e.op) !in {Adding, Connecting, Landing, Ending}
    ensures MovesOne(s, Step(s, e).value, e.t)
  {
  }

  lemma TasksMove(s: World, e: Event)
    requires Step(s, e).Some? && GroupOf(e.op) != Adding
    ensures MovesOne(s, Step(s, e).value, e.t)
  {
    if GroupOf(e.op) !in {Connecting, Landing, Ending} {
      OtherMovesOne(s, e);
    }
  }

  // A task keeps its place while others move.
  lemma OthersKeep(s: World, e: Event, t: Task)
    requires Step(s, e).Some? && t < |s.tasks| && (GroupOf(e.op) == Adding || e.t != t)
    ensures t < |Step(s, e).value.tasks| && Step(s, e).value.tasks[t] == s.tasks[t]
  {
    if GroupOf(e.op) != Adding {
      TasksMove(s, e);
    }
  }

  // ----- What every step keeps -----

  // A token or a client is replaced only when nothing holds the lock.
  lemma ReplacedOnlyWhenIdleInv(s: World, e: Event, s': World)
    requires LockInv(s) && Step(s, e) == Some(s')
    requires s'.b.token != s.b.token || s'.b.client != s.b.client
    ensures forall t: Task :: t < |s.tasks| ==> !HoldsRead(s.tasks[t]) && !HoldsWrite(s.tasks[t])
  {
    if GroupOf(e.op) != Adding {
      StepMoves(s, e);
    }
  }

  ghost predicate TokensKnown(s: World) {
    forall c :: c in s.b.cancelled ==> c <= s.b.token
  }

  lemma ConnectTokens(s: World, e: Event)
    requires Step(s, e).Some? && GroupOf(e.op) in {Connecting, Landing, Ending}
    ensures Step(s, e).value.b.cancelled == s.b.cancelled && Step(s, e).value.b.token == s.b.token
  {
  }

  lemma TokensStep(s: World, e: Event)
    requires Step(s, e).Some?
    ensures s.b.cancelled <= Step(s, e).value.b.cancelled <= s.b.cancelled + {s.b.token}
    ensures Step(s, e).value.b.token >= s.b.token
  {
    if GroupOf(e.op) in {Connecting, Landing, Ending} {
      ConnectTokens(s, e);
    }
  }

  // A task of retry_connect between the store and the clearing of the flag.
  predicate InRetry(pc: Pc) {
    pc.Resetting? || ((pc.Trying? || pc.Settling?) && pc.kind.Retry?) || pc.Unflagging?
  }

  // The flag is set only while some retry runs.
  ghost predicate FlagHeld(s: World) {
    s.b.retrying ==> exists t: Task :: t < |s.tasks| && InRetry(s.tasks[t])
  }

  // What one step does to the flag.
  ghost predicate FlagMoves(s: World, s': World, t: Task)
    requires t < |s.tasks| && t < |s'.tasks|
  {
    s'.b.retrying ==> InRetry(s'.tasks[t]) || (s.b.retrying && !InRetry(s.tasks[t]))
  }

  lemma OtherFlagMove(s: World, e: Event)
    requires Step(s, e).Some? && GroupOf(e.op) !in {Adding, Connecting, Landing, Ending}
    requires MovesOne(s, Step(s, e).value, e.t)
    ensures FlagMoves(s, Step(s, e).value, e.t)
  {
  }

  lemma MoveKeepsFlagHeld(s: World, s': World, t: Task)
    requires FlagHeld(s) && MovesOne(s, s', t) && FlagMoves(s, s', t)
    ensures FlagHeld(s')
  {
    if s'.b.retrying && !InRetry(s'.tasks[t]) {
      var u: Task :| u < |s.tasks| && InRetry(s.tasks[u]);
      assert s'.tasks[u] == s.tasks[u];
    }
  }

  lemma FlagHeldStep(s: World, e: Event)
    requires FlagHeld(s) && Step(s, e).Some?
    ensures FlagHeld(Step(s, e).value)
  {
    var s' := Step(s, e).value;
    if GroupOf(e.op) == Adding {
      assert forall t: Task :: t < |s.tasks| ==> s'.tasks[t] == s.tasks[t];
    } else {
      TasksMove(s, e);
      if GroupOf(e.op) !in {Connecting, Landing, Ending} {
        OtherFlagMove(s, e);
      }
      MoveKeepsFlagHeld(s, s', e.t);
    }
  }

  // A reset that is about to clear the client has cancelled the token.
  ghost predicate ClearingCancelled(s: World) {
    forall t: Task :: t < |s.tasks| && s.tasks[t].ResetClearing? ==> s.b.token in s.b.cancelled
  }

  lemma ClearingStarts(s: World, e: Event, s': World)
    requires Step(s, e) == Some(s') && GroupOf(e.op) != Adding && MovesOne(s, s', e.t)
    requires s'.tasks[e.t].ResetClearing?
    ensures s'.b.token in s'.b.cancelled
  {
    if GroupOf(e.op) !in {Connecting, Landing, Ending} {
      OtherClearing(s, e);
    }
  }

  lemma OtherClearing(s: World, e: Event)
    requires Step(s, e).Some? && GroupOf(e.op) !in {Adding, Connecting, Landing, Ending}
    requires e.t < |s.tasks| && Step(s, e).value.tasks[e.t].ResetClearing?
    ensures Step(s, e).value.b.token in Step(s, e).value.b.cancelled
  {
  }

  lemma ClearingStep(s: World, e: Event)
    requires LockInv(s) && ClearingCancelled(s) && Step(s, e).Some?
    ensures ClearingCancelled(Step(s, e).value)
  {
    var s' := Step(s, e).value;
    TokensStep(s, e);
    forall t: Task | t < |s'.tasks| && s'.tasks[t].ResetClearing?
      ensures s'.b.token in s'.b.cancelled
    {
      if GroupOf(e.op) != Adding {
        TasksMove(s, e);
      }
      if GroupOf(e.op) != Adding && t == e.t {
        ClearingStarts(s, e, s');
      } else {
        assert s.tasks[t].ResetClearing? && HoldsRead(s.tasks[t]);
        if s'.b.token != s.b.token {
          ReplacedOnlyWhenIdleInv(s, e, s');
        }
      }
    }
  }

  // A task dials only while its client is not connected, and a client that is
  // still to be built has never been connected.
  ghost predicate DialInv(s: World) {
    && (forall t: Task :: t < |s.tasks| && Lifecycle.Dials(s.tasks[t]) ==> s.b.Current() == NotConnected)
    && (forall c :: c in s.b.clients ==> c <= s.b.client)
  }

  // A step that dials leaves the client not connected, and one that connects
  // or poisons it ends a dial.
  ghost predicate DialMoves(s: World, s': World, t: Task) {
    && t < |s.tasks| && t < |s'.tasks|
    && (Lifecycle.Dials(s'.tasks[t]) ==> s'.b.Current() == NotConnected)
    && (s.b.Current() == NotConnected != s'.b.Current() ==> Lifecycle.Dials(s.tasks[t]) && s'.b.client == s.b.client)
    && (forall c :: c in s'.b.clients ==> c <= s'.b.client)
  }

  lemma TryDialMoves(s: World, e: Event)
    requires LockInv(s) && DialInv(s) && Step(s, e).Some? && GroupOf(e.op) in {Connecting, Landing}
    ensures DialMoves(s, Step(s, e).value, e.t)
  {
    assert UsesCurrent(s, s.tasks[e.t]);
  }

  lemma AdminDialMoves(s: World, e: Event)
    requires LockInv(s) && DialInv(s) && Step(s, e).Some? && GroupOf(e.op) in {Switching, Clearing}
    ensures DialMoves(s, Step(s, e).value, e.t)
  {
  }

  lemma OtherDialMoves(s: World, e: Event)
    requires LockInv(s) && DialInv(s) && Step(s, e).Some? && GroupOf(e.op) in {Guarding, Settlement}
    ensures DialMoves(s, Step(s, e).value, e.t)
  {
  }

  lemma RetryDialMoves(s: World, e: Event)
    requires LockInv(s) && DialInv(s) && Step(s, e).Some? && GroupOf(e.op) == Retrying
    ensures DialMoves(s, Step(s, e).value, e.t)
  {
  }

  lemma MoveKeepsDialInv(s: World, s': World, t: Task)
    requires LockInv(s) && DialInv(s) && DialMoves(s, s', t)
    requires s'.tasks == s.tasks[t := s'.tasks[t]] || s'.tasks == s.tasks[t := s'.tasks[t]] + [RetrySpawned]
    ensures DialInv(s')
  {
    assert UsesCurrent(s, s.tasks[t]);
    forall u: Task | u < |s'.tasks| && Lifecycle.Dials(s'.tasks[u])
      ensures s'.b.Current() == NotConnected
    {
      if u != t {
        assert UsesCurrent(s, s.tasks[u]) && s.holders[s.b.client] == u;
      }
    }
  }

  // Every step keeps the invariant.
  lemma DialInvStep(s: World, e: Event)
    requires LockInv(s) && DialInv(s) && Step(s, e).Some?
    ensures DialInv(Step(s, e).value)
  {
    if GroupOf(e.op) != Adding {
      StepMoves(s, e);
      if GroupOf(e.op) in {Connecting, Landing} {
        TryDialMoves(s, e);
      } else if GroupOf(e.op) == Ending {
      } else if GroupOf(e.op) in {Switching, Clearing} {
        AdminDialMoves(s, e);
      } else if GroupOf(e.op) == Retrying {
        RetryDialMoves(s, e);
      } else {
        OtherDialMoves(s, e);
      }
      MoveKeepsDialInv(s, Step(s, e).value, e.t);
    }
  }

  // What holds in every reachable world, at any interleaving.
  ghost predicate WorldInv(s: World) {
    LockInv(s) && TokensKnown(s) && FlagHeld(s) && ClearingCancelled(s) && DialInv(s)
  }

  lemma WorldInvStep(s: World, e: Event)
    requires WorldInv(s) && Step(s, e).Some?
    ensures WorldInv(Step(s, e).value)
  {
    LockInvStep(s, e);
    TokensStep(s, e);
    FlagHeldStep(s, e);
    ClearingStep(s, e);
    DialInvStep(s, e);
  }

  lemma {:induction false} RunKeepsWorldInv(s: World, es: seq<Event>)
    requires WorldInv(s) && Run(s, es).Some?
    ensures WorldInv(Run(s, es).value)
    decreases |es|
  {
    if es != [] {
      WorldInvStep(s, es[0]);
      RunKeepsWorldInv(Step(s, es[0]).value, es[1..]);
    }
  }

  lemma ReachableInv(s: World)
    requires Reachable(s)
    ensures WorldInv(s)
  {
    var status, protocol, maxRetries: nat, es :| Run(NewWorld(status, protocol, maxRetries), es) == Some(s);
    RunKeepsWorldInv(NewWorld(status, protocol, maxRetries), es);
  }
}
