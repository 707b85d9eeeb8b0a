// A backend that is down: who is at work to restore it, and when nobody can.
module Recovery {
  import opened Wrappers
  import opened Backends
  import opened Lifecycle
  import opened Runs

  predicate Down(s: World) {
    s.b.status in {Closed, Unknown}
  }

  // ----- A backend that is down is being retried -----

  // A task that will look at the backend again, or is trying to restore it. A
  // retry that has succeeded and only clears the flag is neither.
  predicate Recovers(pc: Pc) {
    pc.RetrySpawned? || pc.RetryWaiting? || pc.RetryChecking? || pc.RetryLoaded? || pc.SwitchRenewing? ||
    (InRetry(pc) && !(pc.Unflagging? && pc.ok))
  }

  ghost predicate RecoveryInv(s: World) {
    Down(s) ==> exists t: Task :: t < |s.tasks| && Recovers(s.tasks[t])
  }

  // A retry_forever task gives up: its last try has failed.
  predicate GivesUp(s: World, e: Event) {
    e.t < |s.tasks| && InRetry(s.tasks[e.t]) && Recovers(s.tasks[e.t]) && Step(s, e).Some? &&
    e.t < |Step(s, e).value.tasks| && Step(s, e).value.tasks[e.t].Done? && Down(Step(s, e).value)
  }

  // A retry_forever task leaves a backend that is down to the retry that has
  // set the flag.
  predicate Yields(s: World, e: Event) {
    Step(s, e).Some? && Down(s) && s.b.retrying && (e.op.RetryLoad? || (e.op.RetryCheck? && !e.fine))
  }

  // And no other task recovers.
  ghost predicate LastLeaves(s: World, e: Event) {
    (GivesUp(s, e) || Yields(s, e)) && forall u: Task :: u < |s.tasks| && u != e.t ==> !Recovers(s.tasks[u])
  }

  // A task that recovers leaves that to another, or gives up, or the backend
  // is not down; and one that takes the backend down sees to its recovery.
  ghost predicate RecoveryMoves(s: World, e: Event, s': World)
    requires e.t < |s.tasks| && e.t < |s'.tasks|
  {
    Down(s') ==>
      || Recovers(s'.tasks[e.t])
      || s'.tasks == s.tasks[e.t := s'.tasks[e.t]] + [RetrySpawned]
      || ((GivesUp(s, e) || Yields(s, e)) && s'.tasks == s.tasks[e.t := Done])
      || (Down(s) && !Recovers(s.tasks[e.t]))
  }

  lemma EndRecoveryMove(s: World, e: Event)
    requires Step(s, e).Some? && GroupOf(e.op) in {Ending, Settlement} && MovesOne(s, Step(s, e).value, e.t)
    ensures RecoveryMoves(s, e, Step(s, e).value)
  {
  }

  lemma OtherRecoveryMove(s: World, e: Event)
    requires Step(s, e).Some? && GroupOf(e.op) in {Guarding, Retrying, Switching, Clearing}
    requires MovesOne(s, Step(s, e).value, e.t)
    ensures RecoveryMoves(s, e, Step(s, e).value)
  {
  }

  // At any interleaving, exactly the last task that gives up, or yields to a
  // retry that has already succeeded, leaves a backend down with nobody to
  // restore it.
  lemma RecoveryBreaksIff(s: World, e: Event, s': World)
    requires RecoveryInv(s) && Step(s, e) == Some(s')
    ensures RecoveryInv(s') <==> !LastLeaves(s, e)
  {
    if GroupOf(e.op) == Adding {
      assert forall t: Task :: t < |s.tasks| ==> s'.tasks[t] == s.tasks[t];
      assert !GivesUp(s, e) && !Yields(s, e);
    } else {
      TasksMove(s, e);
      if GroupOf(e.op) in {Connecting, Landing} {
      } else if GroupOf(e.op) in {Ending, Settlement} {
        EndRecoveryMove(s, e);
      } else {
        OtherRecoveryMove(s, e);
      }
      MoveRecovers(s, e, s');
    }
  }

  lemma MoveRecovers(s: World, e: Event, s': World)
    requires RecoveryInv(s) && Step(s, e) == Some(s') && MovesOne(s, s', e.t) && RecoveryMoves(s, e, s')
    ensures RecoveryInv(s') <==> !LastLeaves(s, e)
  {
    forall u: Task | u < |s.tasks| && u != e.t
      ensures s'.tasks[u] == s.tasks[u]
    {
    }
    if LastLeaves(s, e) {
      LeaverSpawnsNothing(s, e, s');
    } else if Down(s') {
      if Recovers(s'.tasks[e.t]) {
      } else if |s'.tasks| > |s.tasks| {
        assert Recovers(s'.tasks[|s.tasks|]);
      } else {
        var u: Task :| u < |s.tasks| && u != e.t && Recovers(s.tasks[u]);
      }
    }
  }

  lemma LeaverSpawnsNothing(s: World, e: Event, s': World)
    requires Step(s, e) == Some(s') && (GivesUp(s, e) || Yields(s, e))
    ensures s'.tasks == s.tasks[e.t := Done]
  {
    if GroupOf(e.op) in {Ending, Settlement} {
      EndLeaverSpawnsNothing(s, e, s');
    }
  }

  lemma EndLeaverSpawnsNothing(s: World, e: Event, s': World)
    requires Step(s, e) == Some(s') && GroupOf(e.op) in {Ending, Settlement} && GivesUp(s, e)
    ensures s'.tasks == s.tasks[e.t := Done]
  {
  }

  // The retry that the last one yields to has succeeded, and only has the flag
  // to clear.
  lemma YieldsToSuccess(s: World, e: Event)
    requires Reachable(s) && Yields(s, e) && LastLeaves(s, e)
    ensures exists u: Task :: u < |s.tasks| && u != e.t && s.tasks[u].Unflagging? && s.tasks[u].ok
  {
    ReachableInv(s);
    var u: Task :| u < |s.tasks| && InRetry(s.tasks[u]);
    assert u != e.t;
  }

  // Somebody is at work to restore the backend in every world of the run in
  // which it is down.
  ghost predicate AlwaysRetried(s: World, es: seq<Event>)
    decreases |es|
  {
    RecoveryInv(s) && (es != [] && Step(s, es[0]).Some? ==> AlwaysRetried(Step(s, es[0]).value, es[1..]))
  }

  ghost predicate NoneLeavesLast(s: World, es: seq<Event>)
    decreases |es|
  {
    es == [] || (!LastLeaves(s, es[0]) && (Step(s, es[0]).Some? ==> NoneLeavesLast(Step(s, es[0]).value, es[1..])))
  }

  lemma {:induction false} RetriedIff(s: World, es: seq<Event>)
    requires RecoveryInv(s) && Run(s, es).Some?
    ensures AlwaysRetried(s, es) <==> NoneLeavesLast(s, es)
    decreases |es|
  {
    if es != [] {
      var s' := Step(s, es[0]).value;
      RecoveryBreaksIff(s, es[0], s');
      if RecoveryInv(s') {
        RetriedIff(s', es[1..]);
      }
    }
  }

  // At any interleaving, a backend is never down without a task at work to
  // restore it if and only if it is not configured to be down and no
  // retry_forever task gives up, or yields, as the last one.
  lemma {:induction false} DownIsBeingRetried(status: Status, protocol: Protocol, maxRetries: nat, es: seq<Event>)
    requires Run(NewWorld(status, protocol, maxRetries), es).Some?
    ensures AlwaysRetried(NewWorld(status, protocol, maxRetries), es) <==>
      status in {Normal, ForceClosed} && NoneLeavesLast(NewWorld(status, protocol, maxRetries), es)
  {
    if status in {Normal, ForceClosed} {
      RetriedIff(NewWorld(status, protocol, maxRetries), es);
    }
  }
}
