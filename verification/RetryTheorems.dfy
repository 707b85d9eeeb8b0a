// Retries: the flag, poisoned clients, who restores a backend and for how long,
// in every run of the machine in `Lifecycle`.
module RetryTheorems {
  import opened Wrappers
  import opened Connector
  import opened Backends
  import opened Lifecycle
  import opened Runs

  // ----- The retrying flag -----

  // The flag says whether a retry runs, and at most one does.
  ghost predicate FlagInv(s: World) {
    && (forall t: Task :: t < |s.tasks| && InRetry(s.tasks[t]) ==> s.b.retrying)
    && (forall t: Task, u: Task ::
          t < |s.tasks| && u < |s.tasks| && InRetry(s.tasks[t]) && InRetry(s.tasks[u]) ==> t == u)
    && (s.b.retrying ==> exists t: Task :: t < |s.tasks| && InRetry(s.tasks[t]))
  }

  // A retry that was preempted after it loaded the flag stores it, and another
  // has stored it since.
  predicate Clashes(s: World, e: Event) {
    e.op == RetryStore && s.b.retrying
  }

  // What a step that does not clash does to the flag and to its task.
  ghost predicate RetryMoves(s: World, s': World, t: Task)
    requires t < |s.tasks|
  {
    && t < |s'.tasks|
    && if InRetry(s.tasks[t]) == InRetry(s'.tasks[t])
       then s'.b.retrying == s.b.retrying || (s.CanWrite() && !s'.b.retrying)
       else s'.b.retrying == InRetry(s'.tasks[t]) && (s'.b.retrying ==> !s.b.retrying)
  }

  lemma EndRetryMove(s: World, e: Event)
    requires Step(s, e).Some? && GroupOf(e.op) == Ending && e.t < |s.tasks|
    ensures RetryMoves(s, Step(s, e).value, e.t)
  {
  }

  lemma ConnectRetryMove(s: World, e: Event)
    requires Step(s, e).Some? && GroupOf(e.op) in {Connecting, Landing} && e.t < |s.tasks|
    ensures RetryMoves(s, Step(s, e).value, e.t)
  {
  }

  lemma OtherRetryMove(s: World, e: Event)
    requires Step(s, e).Some? && GroupOf(e.op) !in {Adding, Connecting, Landing, Ending} && e.t < |s.tasks|
    requires !Clashes(s, e)
    ensures RetryMoves(s, Step(s, e).value, e.t)
  {
  }

  lemma MoveKeepsFlagInv(s: World, s': World, t: Task)
    requires LockInv(s) && FlagInv(s) && MovesOne(s, s', t) && RetryMoves(s, s', t)
    ensures FlagInv(s')
  {
    assert forall u: Task :: u < |s.tasks| && u != t ==> s'.tasks[u] == s.tasks[u];
  }

  lemma AddKeepsFlagInv(s: World, e: Event)
    requires FlagInv(s) && Step(s, e).Some? && GroupOf(e.op) == Adding
    ensures FlagInv(Step(s, e).value)
  {
    var s' := Step(s, e).value;
    assert forall t: Task :: t < |s.tasks| ==> s'.tasks[t] == s.tasks[t];
  }

  // A clash sets two retries running.
  lemma ClashBreaks(s: World, e: Event)
    requires FlagInv(s) && Step(s, e).Some? && Clashes(s, e)
    ensures !FlagInv(Step(s, e).value)
  {
    var s' := Step(s, e).value;
    var u: Task :| u < |s.tasks| && InRetry(s.tasks[u]);
    assert s.tasks[e.t].RetryLoaded? && InRetry(s'.tasks[e.t]) && InRetry(s'.tasks[u]);
  }

  // At any interleaving, exactly a clash breaks it.
  lemma FlagBreaksIff(s: World, e: Event, s': World)
    requires LockInv(s) && FlagInv(s) && Step(s, e) == Some(s')
    ensures FlagInv(s') <==> !Clashes(s, e)
  {
    if Clashes(s, e) {
      ClashBreaks(s, e);
    } else if GroupOf(e.op) == Adding {
      AddKeepsFlagInv(s, e);
    } else {
      TasksMove(s, e);
      if GroupOf(e.op) in {Connecting, Landing} {
        ConnectRetryMove(s, e);
      } else if GroupOf(e.op) == Ending {
        EndRetryMove(s, e);
      } else {
        OtherRetryMove(s, e);
      }
      MoveKeepsFlagInv(s, s', e.t);
    }
  }

  ghost predicate FlagExact(s: World, es: seq<Event>)
    decreases |es|
  {
    FlagInv(s) && (es != [] && Step(s, es[0]).Some? ==> FlagExact(Step(s, es[0]).value, es[1..]))
  }

  predicate NeverClashes(s: World, es: seq<Event>)
    decreases |es|
  {
    es == [] || (!Clashes(s, es[0]) && (Step(s, es[0]).Some? ==> NeverClashes(Step(s, es[0]).value, es[1..])))
  }

  lemma {:induction false} FlagExactIff(s: World, es: seq<Event>)
    requires LockInv(s) && FlagInv(s) && Run(s, es).Some?
    ensures FlagExact(s, es) <==> NeverClashes(s, es)
    decreases |es|
  {
    if es != [] {
      var s' := Step(s, es[0]).value;
      FlagBreaksIff(s, es[0], s');
      LockInvStep(s, es[0]);
      if FlagInv(s') {
        FlagExactIff(s', es[1..]);
      }
    }
  }

  // At any interleaving, throughout a run, the flag says whether a retry runs
  // and at most one does, if and only if no retry clashes.
  lemma {:induction false} OneRetryIffNoClash(status: Status, protocol: Protocol, maxRetries: nat, es: seq<Event>)
    requires Run(NewWorld(status, protocol, maxRetries), es).Some?
    ensures FlagExact(NewWorld(status, protocol, maxRetries), es)
      <==> NeverClashes(NewWorld(status, protocol, maxRetries), es)
  {
    FlagExactIff(NewWorld(status, protocol, maxRetries), es);
  }

  // No retry is preempted as it checks the backend.
  predicate ChecksWhole(es: seq<Event>) {
    forall i :: 0 <= i < |es| ==> es[i].op == RetryCheck ==> !es[i].fine
  }

  ghost predicate NoneLoaded(s: World) {
    forall t: Task :: t < |s.tasks| ==> !s.tasks[t].RetryChecking? && !s.tasks[t].RetryLoaded?
  }

  lemma OtherUnloaded(s: World, e: Event)
    requires Step(s, e).Some? && (e.op == RetryCheck ==> !e.fine) && MovesOne(s, Step(s, e).value, e.t)
    requires GroupOf(e.op) !in {Adding, Connecting, Landing, Ending}
    requires !s.tasks[e.t].RetryChecking? && !s.tasks[e.t].RetryLoaded?
    ensures var pc := Step(s, e).value.tasks[e.t]; !pc.RetryChecking? && !pc.RetryLoaded?
  {
  }

  lemma NoneLoadedStep(s: World, e: Event)
    requires NoneLoaded(s) && Step(s, e).Some? && (e.op == RetryCheck ==> !e.fine)
    ensures NoneLoaded(Step(s, e).value)
  {
    var s' := Step(s, e).value;
    if GroupOf(e.op) == Adding {
      assert forall t: Task :: t < |s.tasks| ==> s'.tasks[t] == s.tasks[t];
    } else {
      TasksMove(s, e);
      if GroupOf(e.op) !in {Connecting, Landing, Ending} {
        OtherUnloaded(s, e);
      }
    }
  }

  lemma {:induction false} WholeChecksNeverClash(s: World, es: seq<Event>)
    requires NoneLoaded(s) && Run(s, es).Some? && ChecksWhole(es)
    ensures NeverClashes(s, es)
    decreases |es|
  {
    if es != [] {
      NoneLoadedStep(s, es[0]);
      WholeChecksNeverClash(Step(s, es[0]).value, es[1..]);
    }
  }

  lemma {:induction false} FlagExactAtEnd(s: World, es: seq<Event>)
    requires Run(s, es).Some? && FlagExact(s, es)
    ensures FlagInv(Run(s, es).value)
    decreases |es|
  {
    if es != [] {
      FlagExactAtEnd(Step(s, es[0]).value, es[1..]);
    }
  }

  // So while no check is preempted, as at await level, the flag is exact.
  lemma {:induction false} RetryingIffOneRetry(status: Status, protocol: Protocol, maxRetries: nat, es: seq<Event>)
    requires ChecksWhole(es) && Run(NewWorld(status, protocol, maxRetries), es).Some?
    ensures var s := Run(NewWorld(status, protocol, maxRetries), es).value;
      && (s.b.retrying <==> exists t: Task :: t < |s.tasks| && InRetry(s.tasks[t]))
      && (forall t: Task, u: Task ::
            t < |s.tasks| && u < |s.tasks| && InRetry(s.tasks[t]) && InRetry(s.tasks[u]) ==> t == u)
  {
    var s := NewWorld(status, protocol, maxRetries);
    WholeChecksNeverClash(s, es);
    FlagExactIff(s, es);
    FlagExactAtEnd(s, es);
  }

  // At any interleaving a renewal never finds the flag set: it interrupts no
  // retry.
  lemma RenewalInterruptsNoRetry(s: World, e: Event)
    requires Reachable(s) && Step(s, e).Some?
    requires Step(s, e).value.b.token != s.b.token
    ensures !s.b.retrying
  {
    ReachableInv(s);
    ReplacedOnlyWhenIdleInv(s, e, Step(s, e).value);
  }

  // The program counters that only a preempted load or outcome leads to.
  predicate Preempted(pc: Pc) {
    pc.Settling? || pc.Unflagging? || pc.RetryChecking? || pc.RetryLoaded? || pc.SwitchStoring?
  }

  ghost predicate NonePreempted(s: World) {
    forall t: Task :: t < |s.tasks| ==> !Preempted(s.tasks[t])
  }

  lemma OtherUnpreempted(s: World, e: Event)
    requires Step(s, e).Some? && !e.fine && GroupOf(e.op) !in {Adding, Connecting, Landing, Ending}
    requires MovesOne(s, Step(s, e).value, e.t)
    ensures !Preempted(Step(s, e).value.tasks[e.t])
  {
  }

  lemma EndUnpreempted(s: World, e: Event)
    requires Step(s, e).Some? && !e.fine && GroupOf(e.op) == Ending && MovesOne(s, Step(s, e).value, e.t)
    ensures !Preempted(Step(s, e).value.tasks[e.t])
  {
  }

  lemma NonePreemptedStep(s: World, e: Event)
    requires NonePreempted(s) && Step(s, e).Some? && !e.fine
    ensures NonePreempted(Step(s, e).value)
  {
    var s' := Step(s, e).value;
    if GroupOf(e.op) == Adding {
      assert forall t: Task :: t < |s.tasks| ==> s'.tasks[t] == s.tasks[t];
    } else {
      TasksMove(s, e);
      if GroupOf(e.op) == Ending {
        EndUnpreempted(s, e);
      } else if GroupOf(e.op) !in {Connecting, Landing} {
        OtherUnpreempted(s, e);
      }
    }
  }

  lemma {:induction false} RunKeepsNonePreempted(s: World, es: seq<Event>)
    requires LockInv(s) && NonePreempted(s) && Run(s, es).Some? && AwaitLevel(es)
    ensures LockInv(Run(s, es).value) && NonePreempted(Run(s, es).value)
    decreases |es|
  {
    if es != [] {
      LockInvStep(s, es[0]);
      NonePreemptedStep(s, es[0]);
      RunKeepsNonePreempted(Step(s, es[0]).value, es[1..]);
    }
  }

  // The worlds that await-level steps lead to.
  ghost predicate AwaitReachable(s: World) {
    exists status, protocol, maxRetries: nat, es ::
      AwaitLevel(es) && Run(NewWorld(status, protocol, maxRetries), es) == Some(s)
  }

  lemma AwaitReachableInv(s: World)
    requires AwaitReachable(s)
    ensures LockInv(s) && NonePreempted(s)
  {
    var status, protocol, maxRetries: nat, es :|
      AwaitLevel(es) && Run(NewWorld(status, protocol, maxRetries), es) == Some(s);
    RunKeepsNonePreempted(NewWorld(status, protocol, maxRetries), es);
  }

  // ----- Poisoned clients -----

  // A retry connects while no other connection attempt does.
  ghost predicate RetriesAlone(s: World) {
    forall t: Task, u: Task ::
      (t < |s.tasks| && u < |s.tasks| && s.tasks[t].Trying? && s.tasks[t].kind.Retry? && s.tasks[u].Trying?) ==> t == u
  }

  ghost predicate RunsAlone(s: World, es: seq<Event>)
    requires Run(s, es).Some?
    decreases |es|
  {
    RetriesAlone(s) && (es != [] ==> RunsAlone(Step(s, es[0]).value, es[1..]))
  }

  predicate RetryStreams(pc: Pc) {
    pc.Trying? && pc.kind.Retry? && pc.phase == Streaming
  }

  ghost predicate PoisonInv(s: World) {
    && (s.b.Current() == Poisoned ==> s.b.status != Normal)
    && (forall t: Task :: t < |s.tasks| && RetryStreams(s.tasks[t]) ==> s.b.Current() != Poisoned)
  }

  ghost predicate PoisonMoves(s: World, s': World, t: Task)
    requires t < |s.tasks|
  {
    && (s'.b.Current() == Poisoned ==> s'.b.status != Normal)
    && t < |s'.tasks| && (RetryStreams(s'.tasks[t]) ==> s'.b.Current() != Poisoned)
    && (s'.b.Current() == Poisoned ==> s.b.Current() == Poisoned || s.tasks[t].Trying?)
  }

  lemma EndPoisonMove(s: World, e: Event)
    requires Step(s, e).Some? && !e.fine && GroupOf(e.op) == Ending && e.t < |s.tasks| && !Preempted(s.tasks[e.t])
    requires s.b.Current() == Poisoned ==> s.b.status != Normal && !RetryStreams(s.tasks[e.t])
    ensures PoisonMoves(s, Step(s, e).value, e.t)
  {
  }

  lemma OtherPoisonMove(s: World, e: Event)
    requires Step(s, e).Some? && !e.fine && GroupOf(e.op) !in {Adding, Connecting, Landing, Ending} && e.t < |s.tasks|
    requires s.b.Current() == Poisoned ==> s.b.status != Normal
    requires !Preempted(s.tasks[e.t])
    ensures PoisonMoves(s, Step(s, e).value, e.t)
  {
  }

  lemma PoisonInvStep(s: World, e: Event)
    requires LockInv(s) && NonePreempted(s) && PoisonInv(s) && RetriesAlone(s)
    requires Step(s, e).Some? && !e.fine
    ensures PoisonInv(Step(s, e).value)
  {
    if GroupOf(e.op) != Adding {
      TasksMove(s, e);
      if GroupOf(e.op) == Ending {
        EndPoisonMove(s, e);
      } else if GroupOf(e.op) in {Connecting, Landing} {
      } else {
        OtherPoisonMove(s, e);
      }
    }
  }

  lemma {:induction false} RunKeepsPoisonInv(s: World, es: seq<Event>)
    requires LockInv(s) && NonePreempted(s) && PoisonInv(s)
    requires AwaitLevel(es) && Run(s, es).Some? && RunsAlone(s, es)
    ensures PoisonInv(Run(s, es).value)
    decreases |es|
  {
    if es != [] {
      LockInvStep(s, es[0]);
      NonePreemptedStep(s, es[0]);
      PoisonInvStep(s, es[0]);
      RunKeepsPoisonInv(Step(s, es[0]).value, es[1..]);
    }
  }

  // In every await-level run in which retries connect alone (so whenever
  // attempts and retries are single steps), a poisoned client is never Normal.
  lemma {:induction false} PoisonedIsNotNormal(status: Status, protocol: Protocol, maxRetries: nat, es: seq<Event>)
    requires AwaitLevel(es) && Run(NewWorld(status, protocol, maxRetries), es).Some?
    requires RunsAlone(NewWorld(status, protocol, maxRetries), es)
    ensures var s := Run(NewWorld(status, protocol, maxRetries), es).value;
      s.b.Current() == Poisoned ==> s.b.status != Normal
  {
    RunKeepsPoisonInv(NewWorld(status, protocol, maxRetries), es);
  }

  // After such a run, a backend that is handed out and tried at once is not
  // refused for a poisoned client: the attempt dials, or starts a stream.
  lemma {:induction false} HandedOutNotPoisoned(status: Status, protocol: Protocol, maxRetries: nat, es: seq<Event>,
                             s: World, finished: bool, s1: World, s2: World, s3: World)
    requires AwaitLevel(es) && Run(NewWorld(status, protocol, maxRetries), es) == Some(s)
    requires RunsAlone(NewWorld(status, protocol, maxRetries), es)
    requires Step(s, Event(Pick, 0, false)) == Some(s1)
    requires Step(s1, Event(BeginAttempt, |s.tasks|, false)) == Some(s2)
    requires Step(s2, Event(LockClient(finished), |s.tasks|, false)) == Some(s3)
    ensures s3.tasks[|s.tasks|].Trying? && s3.tasks[|s.tasks|].phase != Locking
    ensures s3.b.status == Normal
  {
    PoisonedIsNotNormal(status, protocol, maxRetries, es);
  }

  // ----- Who restores a backend -----

  // Normal is entered only by a retry whose connection attempt succeeded.
  lemma NormalOnlyByRetry(s: World, e: Event, s': World)
    requires Step(s, e) == Some(s') && s.b.status != Normal && s'.b.status == Normal
    ensures e.t < |s.tasks|
    ensures (e.op == StreamEnd(true) && RetryStreams(s.tasks[e.t])) ||
      (e.op == Settle && s.tasks[e.t].Settling? && s.tasks[e.t].kind.Retry? && s.tasks[e.t].ok)
  {
    if GroupOf(e.op) in {Connecting, Landing} {
      DialsNeverRestore(s, e, s');
    } else if GroupOf(e.op) !in {Ending, Settlement} {
      OthersNeverRestore(s, e, s');
    }
  }

  lemma DialsNeverRestore(s: World, e: Event, s': World)
    requires Step(s, e) == Some(s') && s.b.status != Normal && GroupOf(e.op) in {Connecting, Landing}
    ensures s'.b.status != Normal
  {
  }

  lemma OthersNeverRestore(s: World, e: Event, s': World)
    requires Step(s, e) == Some(s') && s.b.status != Normal
    requires GroupOf(e.op) !in {Connecting, Landing, Ending, Settlement}
    ensures s'.b.status != Normal
  {
  }

  predicate RetryConnects(pc: Pc) {
    (pc.Trying? || pc.Settling?) && pc.kind.Retry?
  }

  lemma RetryConnectsMove(s: World, e: Event, s': World, t: Task)
    requires Step(s, e) == Some(s') && t < |s'.tasks| && RetryConnects(s'.tasks[t])
    requires !(e.op == RetryReset && e.t == t)
    ensures t < |s.tasks| && RetryConnects(s.tasks[t])
    ensures e.t == t ==> e.op != RetryCheck
  {
    if GroupOf(e.op) != Adding {
      TasksMove(s, e);
    }
  }

  // Event i of the run is task t's reset, after which it has neither checked
  // nor reset again.
  predicate ResetLast(es: seq<Event>, i: nat, t: Task) {
    && i < |es| && es[i].op == RetryReset && es[i].t == t
    && forall j :: i < j < |es| && es[j].t == t ==> es[j].op != RetryCheck && es[j].op != RetryReset
  }

  lemma {:induction false} ResetLastStill(es: seq<Event>, i: nat, t: Task)
    requires es != [] && ResetLast(es[..|es| - 1], i, t)
    requires es[|es| - 1].t == t ==> es[|es| - 1].op != RetryCheck && es[|es| - 1].op != RetryReset
    ensures ResetLast(es, i, t)
  {
  }

  // A retry that connects has reset the client, and has not looked at the
  // status or waited since.
  lemma {:induction false} RetryResetFirst(s: World, es: seq<Event>, s': World, t: Task) returns (i: nat)
    requires s.tasks == [] && Run(s, es) == Some(s') && t < |s'.tasks| && RetryConnects(s'.tasks[t])
    ensures ResetLast(es, i, t)
    decreases |es|
  {
    var n := |es| - 1;
    var before := RunLast(s, es);
    if es[n].op == RetryReset && es[n].t == t {
      i := n;
    } else {
      RetryConnectsMove(before, es[n], s', t);
      i := RetryResetFirst(s, es[..n], before, t);
      ResetLastStill(es, i, t);
    }
  }

  ghost predicate PoisonedNormal(s: World) {
    s.b.status == Normal && s.b.Current() == Poisoned
  }

  // A retry whose stream is there, or was there before it was preempted, while
  // another attempt has poisoned its client; or a failed dial of a backend that
  // is up, preempted before the backend is marked down.
  predicate PoisonsNormal(s: World, e: Event) {
    e.t < |s.tasks| && var pc := s.tasks[e.t];
    || (e.op == StreamEnd(true) && !e.fine && RetryStreams(pc) && s.b.Current() == Poisoned)
    || (e.op == Settle && pc.Settling? && pc.kind.Retry? && pc.ok && s.b.Current() == Poisoned)
    || (e.op.DialEnd? && !e.op.ok && e.fine && s.b.status == Normal)
  }

  lemma EndPoisonsNormal(s: World, e: Event)
    requires Step(s, e).Some? && GroupOf(e.op) in {Ending, Settlement} && !PoisonedNormal(s)
    ensures PoisonedNormal(Step(s, e).value) <==> PoisonsNormal(s, e)
  {
  }

  lemma OtherPoisonsNormal(s: World, e: Event)
    requires Step(s, e).Some? && GroupOf(e.op) !in {Connecting, Landing, Ending, Settlement} && !PoisonedNormal(s)
    ensures !PoisonedNormal(Step(s, e).value) && !PoisonsNormal(s, e)
  {
  }

  // At any interleaving these are the ways, and the only ways, into Normal with
  // a poisoned client.
  lemma PoisonedNormalOnlyBy(s: World, e: Event, s': World)
    requires LockInv(s) && Step(s, e) == Some(s') && !PoisonedNormal(s)
    ensures PoisonedNormal(s') <==> PoisonsNormal(s, e)
  {
    if GroupOf(e.op) in {Connecting, Landing} {
      assert UsesCurrent(s, s.tasks[e.t]);
    } else if GroupOf(e.op) in {Ending, Settlement} {
      EndPoisonsNormal(s, e);
    } else {
      OtherPoisonsNormal(s, e);
    }
  }

  ghost predicate NeverPoisonedNormal(s: World, es: seq<Event>)
    decreases |es|
  {
    !PoisonedNormal(s) && (es != [] && Step(s, es[0]).Some? ==> NeverPoisonedNormal(Step(s, es[0]).value, es[1..]))
  }

  predicate NonePoisonsNormal(s: World, es: seq<Event>)
    decreases |es|
  {
    es == [] ||
    (!PoisonsNormal(s, es[0]) && (Step(s, es[0]).Some? ==> NonePoisonsNormal(Step(s, es[0]).value, es[1..])))
  }

  lemma {:induction false} NeverPoisonedIff(s: World, es: seq<Event>)
    requires LockInv(s) && !PoisonedNormal(s) && Run(s, es).Some?
    ensures NeverPoisonedNormal(s, es) <==> NonePoisonsNormal(s, es)
    decreases |es|
  {
    if es != [] {
      var s' := Step(s, es[0]).value;
      PoisonedNormalOnlyBy(s, es[0], s');
      LockInvStep(s, es[0]);
      if !PoisonedNormal(s') {
        NeverPoisonedIff(s', es[1..]);
      }
    }
  }

  // So throughout a run, at any interleaving, a poisoned client implies that
  // the backend is not Normal if and only if none of them is taken.
  lemma {:induction false} PoisonedNeverNormalIff(status: Status, protocol: Protocol, maxRetries: nat, es: seq<Event>)
    requires Run(NewWorld(status, protocol, maxRetries), es).Some?
    ensures NeverPoisonedNormal(NewWorld(status, protocol, maxRetries), es)
      <==> NonePoisonsNormal(NewWorld(status, protocol, maxRetries), es)
  {
    NeverPoisonedIff(NewWorld(status, protocol, maxRetries), es);
  }

  // At await level the one way is a retry's stream.
  lemma PoisonedNormalOnlyByRetry(s: World, e: Event, s': World)
    requires AwaitReachable(s) && !e.fine && Step(s, e) == Some(s') && !PoisonedNormal(s)
    ensures PoisonedNormal(s') <==> e.op == StreamEnd(true) && RetryStreams(s.tasks[e.t]) && s.b.Current() == Poisoned
  {
    AwaitReachableInv(s);
    PoisonedNormalOnlyBy(s, e, s');
    assert e.t < |s.tasks| ==> !Preempted(s.tasks[e.t]);
  }

  // ----- How long retry_forever goes on -----

  // An upper bound on the connection attempts that a task still has.
  function Budget(s: World, t: Task): nat {
    if t >= |s.tasks| then s.Limit() else
    match s.tasks[t]
    case RetrySpawned => s.Limit()
    case RetryWaiting(left) => if left == 0 then 1 else left
    case RetryChecking(left) => if left == 0 then 1 else left
    case RetryLoaded(left) => if left == 0 then 1 else left
    case Resetting(left) => if left == 0 then 1 else left
    case Trying(Retry(left), _, _, _) => if left == 0 then 0 else left - 1
    case Settling(Retry(left), _) => if left == 0 then 0 else left - 1
    case Unflagging(left, ok) => if ok || left == 0 then 0 else left - 1
    case _ => 0
  }

  predicate Retries(e: Event, t: Task) {
    e.op == RetryReset && e.t == t
  }

  function RetryCount(es: seq<Event>, t: Task): nat {
    if es == [] then 0 else RetryCount(es[1..], t) + if Retries(es[0], t) then 1 else 0
  }

  lemma BudgetStep(s: World, e: Event, s': World, t: Task)
    requires Step(s, e) == Some(s')
    ensures Budget(s', t) + (if Retries(e, t) then 1 else 0) <= Budget(s, t)
    ensures s'.maxRetries == s.maxRetries
  {
    if GroupOf(e.op) != Adding {
      TasksMove(s, e);
      OwnBudgetStep(s, e, s');
    }
  }

  lemma OwnBudgetStep(s: World, e: Event, s': World)
    requires Step(s, e) == Some(s') && GroupOf(e.op) != Adding
    ensures Budget(s', e.t) + (if e.op == RetryReset then 1 else 0) <= Budget(s, e.t)
    ensures s'.maxRetries == s.maxRetries
  {
    if GroupOf(e.op) in {Connecting, Landing} {
      ConnectBudgetStep(s, e, s');
    } else if GroupOf(e.op) == Ending {
    } else {
      OtherBudgetStep(s, e, s');
    }
  }

  lemma ConnectBudgetStep(s: World, e: Event, s': World)
    requires Step(s, e) == Some(s') && GroupOf(e.op) in {Connecting, Landing}
    ensures Budget(s', e.t) <= Budget(s, e.t) && s'.maxRetries == s.maxRetries
  {
  }

  lemma OtherBudgetStep(s: World, e: Event, s': World)
    requires Step(s, e) == Some(s') && GroupOf(e.op) !in {Adding, Connecting, Landing, Ending}
    ensures Budget(s', e.t) + (if e.op == RetryReset then 1 else 0) <= Budget(s, e.t)
    ensures s'.maxRetries == s.maxRetries
  {
  }

  // A retry_forever task makes at most max_retries connection attempts, or
  // 2^32 - 1 when max_retries is 0.
  lemma {:induction false} RetriesAreBounded(s: World, es: seq<Event>, t: Task)
    requires Run(s, es).Some?
    ensures RetryCount(es, t) <= Budget(s, t)
    ensures s.tasks == [] ==> RetryCount(es, t) <= if s.maxRetries == 0 then 0xFFFF_FFFF else s.maxRetries
    decreases |es|
  {
    if es != [] {
      var s' := Step(s, es[0]).value;
      BudgetStep(s, es[0], s', t);
      RetriesAreBounded(s', es[1..], t);
    }
  }
}
