// What a single step can do, whoever else is at work: who stores a status, who
// spawns a task, what only an administrator changes, and what preemption and
// the other tasks cannot change.
module StepLaws {
  import opened Wrappers
  import opened Connector
  import opened Backends
  import opened Lifecycle
  import opened Runs
  import opened LifecycleTheorems
  import opened RetryTheorems

  // ----- The status -----

  // The step of a task that reports the failure of its attempt or retry.
  predicate StoresFailure(s: World, e: Event) {
    e.t < |s.tasks| && match s.tasks[e.t]
      case Trying(_, phase, _, client) =>
        !e.fine && (e.op in {DialEnd(false, false), DialEnd(false, true), StreamEnd(false), Abort} ||
          (e.op.LockClient? && s.b.ClientOf(client) == Poisoned))
      case Settling(_, ok) => e.op == Settle && !ok
      case _ => false
  }

  // The step of a retry that reports its success.
  predicate StoresSuccess(s: World, e: Event) {
    e.t < |s.tasks| &&
    ((RetryStreams(s.tasks[e.t]) && e.op == StreamEnd(true) && !e.fine) ||
     (s.tasks[e.t].Settling? && s.tasks[e.t].kind.Retry? && s.tasks[e.t].ok && e.op == Settle))
  }

  ghost predicate StatusMoves(s: World, e: Event, s': World) {
    && (StoresFailure(s, e) ==> s'.b.status == Closed)
    && (StoresSuccess(s, e) ==> s'.b.status == Normal)
    && (Toggles(e) ==> s'.b.status in {ForceClosed, Unknown})
    && (!StoresFailure(s, e) && !StoresSuccess(s, e) && !Toggles(e) ==> s'.b.status == s.b.status)
  }

  lemma TryStatus(s: World, e: Event, s': World)
    requires Step(s, e) == Some(s') && GroupOf(e.op) in {Connecting, Landing}
    ensures StatusMoves(s, e, s')
  {
  }

  lemma EndStatus(s: World, e: Event, s': World)
    requires Step(s, e) == Some(s') && GroupOf(e.op) in {Ending, Settlement}
    ensures StatusMoves(s, e, s')
  {
  }

  lemma SwitchStatus(s: World, e: Event, s': World)
    requires Step(s, e) == Some(s') && GroupOf(e.op) in {Switching, Clearing}
    ensures StatusMoves(s, e, s')
  {
  }

  lemma OtherStatus(s: World, e: Event, s': World)
    requires Step(s, e) == Some(s') && GroupOf(e.op) in {Adding, Guarding, Retrying}
    ensures StatusMoves(s, e, s')
  {
  }

  // At any interleaving a backend is marked Closed only by a failed attempt or
  // retry, Normal only by a retry that has succeeded, and ForceClosed or
  // Unknown only by an administrator; and each of these does mark it.
  lemma StatusOnlyBy(s: World, e: Event, s': World)
    requires Step(s, e) == Some(s')
    ensures StatusMoves(s, e, s')
  {
    if GroupOf(e.op) in {Connecting, Landing} {
      TryStatus(s, e, s');
    } else if GroupOf(e.op) in {Ending, Settlement} {
      EndStatus(s, e, s');
    } else if GroupOf(e.op) in {Switching, Clearing} {
      SwitchStatus(s, e, s');
    } else {
      OtherStatus(s, e, s');
    }
  }

  // What a step tells the status, if anything.
  function Verdict(s: World, e: Event): Option<Status> {
    if StoresFailure(s, e) then Some(Closed)
    else if StoresSuccess(s, e) then Some(Normal)
    else if Toggles(e) then Some(if Reopens(s, e) then Unknown else ForceClosed)
    else None
  }

  // An administrator found the backend ForceClosed.
  predicate Reopens(s: World, e: Event) {
    e.t < |s.tasks| && if s.tasks[e.t].SwitchStoring? then s.tasks[e.t].reopens else s.b.status == ForceClosed
  }

  // What a run told it last.
  function LastTold(s: World, es: seq<Event>, first: Status): Status
    decreases |es|
  {
    if es == [] || Step(s, es[0]).None? then first
    else LastTold(Step(s, es[0]).value, es[1..], match Verdict(s, es[0]) case Some(st) => st case None => first)
  }

  lemma {:induction false} ToldFrom(s: World, es: seq<Event>)
    requires Run(s, es).Some?
    ensures Run(s, es).value.b.status == LastTold(s, es, s.b.status)
    decreases |es|
  {
    if es != [] {
      var s' := Step(s, es[0]).value;
      VerdictIs(s, es[0], s');
      ToldFrom(s', es[1..]);
    }
  }

  lemma VerdictIs(s: World, e: Event, s': World)
    requires Step(s, e) == Some(s')
    ensures s'.b.status == match Verdict(s, e) case Some(st) => st case None => s.b.status
  {
    StatusOnlyBy(s, e, s');
    if Toggles(e) {
      ToggleTells(s, e, s');
    }
  }

  lemma ToggleTells(s: World, e: Event, s': World)
    requires Step(s, e) == Some(s') && Toggles(e)
    ensures s'.b.status == if Reopens(s, e) then Unknown else ForceClosed
    ensures !StoresFailure(s, e) && !StoresSuccess(s, e)
  {
  }

  // In every run the status is the one stored last, or the configured one.
  lemma {:induction false} StatusIsLastTold(status: Status, protocol: Protocol, maxRetries: nat, es: seq<Event>)
    requires Run(NewWorld(status, protocol, maxRetries), es).Some?
    ensures Run(NewWorld(status, protocol, maxRetries), es).value.b.status
      == LastTold(NewWorld(status, protocol, maxRetries), es, status)
  {
    ToldFrom(NewWorld(status, protocol, maxRetries), es);
  }

  // ----- The tasks -----

  // A step that spawns a retry_forever task.
  predicate Spawns(s: World, e: Event) {
    e.op == SwitchRenew ||
    (StoresFailure(s, e) && (s.tasks[e.t].Trying? || s.tasks[e.t].Settling?) && s.tasks[e.t].kind.Attempt?)
  }

  ghost predicate SpawnMoves(s: World, e: Event, s': World) {
    && e.t < |s.tasks| && e.t < |s'.tasks|
    && s'.tasks == s.tasks[e.t := s'.tasks[e.t]] + if Spawns(s, e) then [RetrySpawned] else []
  }

  lemma TrySpawns(s: World, e: Event, s': World)
    requires Step(s, e) == Some(s') && GroupOf(e.op) in {Connecting, Landing}
    ensures SpawnMoves(s, e, s')
  {
  }

  lemma EndSpawns(s: World, e: Event, s': World)
    requires Step(s, e) == Some(s') && GroupOf(e.op) in {Ending, Settlement}
    ensures SpawnMoves(s, e, s')
  {
  }

  lemma OtherSpawns(s: World, e: Event, s': World)
    requires Step(s, e) == Some(s') && GroupOf(e.op) in {Guarding, Retrying, Switching, Clearing}
    ensures SpawnMoves(s, e, s')
  {
  }

  // Where a new activity begins.
  function Begins(op: Op): Pc
    requires GroupOf(op) == Adding
  {
    match op
    case Pick => Picked
    case AskSwitch => SwitchCancelling
    case AskReset => ResetCancelling
    case AskProtocol => ProtocolCancelling
  }

  // A step moves its own task and no other, and spawns a retry_forever task if
  // and only if it fails a peer's attempt or reopens the backend; a new
  // activity changes nothing else, and an attempt begins on a Normal backend.
  lemma SpawnsOnlyBy(s: World, e: Event, s': World)
    requires Step(s, e) == Some(s')
    ensures GroupOf(e.op) != Adding ==> SpawnMoves(s, e, s')
    ensures GroupOf(e.op) == Adding ==>
      && |s'.tasks| == |s.tasks| + 1 && s' == s.Spawn(s'.tasks[|s.tasks|])
      && s'.tasks[|s.tasks|] == Begins(e.op) && (e.op == Pick ==> s.b.status == Normal)
  {
    if GroupOf(e.op) in {Connecting, Landing} {
      TrySpawns(s, e, s');
    } else if GroupOf(e.op) in {Ending, Settlement} {
      EndSpawns(s, e, s');
    } else if GroupOf(e.op) != Adding {
      OtherSpawns(s, e, s');
    }
  }

  // ----- What only an administrator changes -----

  predicate ResetsMetric(op: Op) {
    op in {ResetClear, ProtocolClear}
  }

  ghost predicate AdminMoves(s: World, e: Event, s': World) {
    && s'.b.cancelled == (if Cancels(e.op) then s.b.cancelled + {s.b.token} else s.b.cancelled)
    && (s'.b.token != s.b.token <==> Renews(e.op))
    && (s'.b.client != s.b.client <==> e.op == ProtocolWrite(true))
    && (s'.b.protocol != s.b.protocol <==> e.op.ProtocolWrite?)
    && s'.b.metricResets == s.b.metricResets + (if ResetsMetric(e.op) then 1 else 0)
    && s'.maxRetries == s.maxRetries
  }

  lemma TryKeepsShared(s: World, e: Event, s': World)
    requires Step(s, e) == Some(s') && GroupOf(e.op) in {Connecting, Landing}
    ensures AdminMoves(s, e, s')
  {
  }

  lemma EndKeepsShared(s: World, e: Event, s': World)
    requires Step(s, e) == Some(s') && GroupOf(e.op) in {Ending, Settlement}
    ensures AdminMoves(s, e, s')
  {
  }

  // At any interleaving only the administrator's requests cancel or renew a
  // token, replace the client, change the protocol or reset the metric; and
  // each of their steps does.
  lemma OnlyAdministrators(s: World, e: Event, s': World)
    requires Step(s, e) == Some(s')
    ensures AdminMoves(s, e, s')
  {
    if GroupOf(e.op) in {Connecting, Landing} {
      TryKeepsShared(s, e, s');
    } else if GroupOf(e.op) in {Ending, Settlement} {
      EndKeepsShared(s, e, s');
    }
  }

  function ResetCount(es: seq<Event>): nat {
    if es == [] then 0 else ResetCount(es[..|es| - 1]) + if ResetsMetric(es[|es| - 1].op) then 1 else 0
  }

  function WriteCount(es: seq<Event>): nat {
    if es == [] then 0 else WriteCount(es[..|es| - 1]) + if es[|es| - 1].op.ProtocolWrite? then 1 else 0
  }

  lemma CountsNext(s: World, e: Event, s': World)
    requires Step(s, e) == Some(s')
    ensures s'.b.metricResets == s.b.metricResets + if ResetsMetric(e.op) then 1 else 0
    ensures s'.b.protocol != s.b.protocol <==> e.op.ProtocolWrite?
  {
    OnlyAdministrators(s, e, s');
  }

  // In every run the metric is reset once by each reset of the client and by
  // each switch of protocol whose client builds, and by nothing else; and the
  // protocol is the configured one after an even number of switches.
  lemma {:induction false} AdministratorCounts(status: Status, protocol: Protocol, maxRetries: nat, es: seq<Event>)
    requires Run(NewWorld(status, protocol, maxRetries), es).Some?
    ensures var b := Run(NewWorld(status, protocol, maxRetries), es).value.b;
      b.metricResets == ResetCount(es) && (b.protocol == protocol <==> WriteCount(es) % 2 == 0)
    decreases |es|
  {
    if es != [] {
      var n := |es| - 1;
      var s := RunLast(NewWorld(status, protocol, maxRetries), es);
      AdministratorCounts(status, protocol, maxRetries, es[..n]);
      CountsNext(s, es[n], Step(s, es[n]).value);
    }
  }

  // ----- Transfers -----

  // Whatever ends a transfer, it changes nothing of the backend and nothing of
  // the other tasks, at any interleaving.
  lemma TransferKeeps(s: World, e: Event, s': World)
    requires Step(s, e) == Some(s') && e.t < |s.tasks|
    requires GroupOf(e.op) != Adding && (s.tasks[e.t].Opened? || s.tasks[e.t].Transferring?)
    ensures s' == s.(tasks := s.tasks[e.t := s'.tasks[e.t]], readers := s'.readers)
    ensures s.tasks[e.t].Opened? ==> s'.tasks[e.t] == Transferring(s.b.token) && e.t in s'.readers
    ensures s.tasks[e.t].Transferring? ==> s'.tasks[e.t] == Done && e.t !in s'.readers
  {
  }

  // ----- What the others cannot change -----

  // While a task holds the write guard no other task goes on.
  lemma WriterExcludes(s: World, e: Event)
    requires LockInv(s) && s.writer.Some? && Step(s, e).Some? && GroupOf(e.op) != Adding
    ensures s.writer == Some(e.t)
  {
    assert e.t < |s.tasks| ==> !HoldsRead(s.tasks[e.t]);
  }

  // What a step does to the backend and to its own task depends on nothing
  // else: what holds of a task that runs alone holds step by step among others.
  ghost predicate SameOwn(s': World, u': World, t: Task, n: nat, m: nat) {
    && s'.b == u'.b && t < |s'.tasks| && t < |u'.tasks| && s'.tasks[t] == u'.tasks[t]
    && |s'.tasks| - n == |u'.tasks| - m
  }

  ghost predicate SameTask(s: World, u: World, e: Event) {
    e.t < |s.tasks| && e.t < |u.tasks| && s.b == u.b && s.maxRetries == u.maxRetries && s.tasks[e.t] == u.tasks[e.t]
  }

  lemma LockIsLocal(s: World, u: World, e: Event, s': World, u': World)
    requires SameTask(s, u, e) && Step(s, e) == Some(s') && Step(u, e) == Some(u') && GroupOf(e.op) == Connecting
    ensures SameOwn(s', u', e.t, |s.tasks|, |u.tasks|)
  {
  }

  lemma DialIsLocal(s: World, u: World, e: Event, s': World, u': World)
    requires SameTask(s, u, e) && Step(s, e) == Some(s') && Step(u, e) == Some(u') && GroupOf(e.op) == Landing
    ensures SameOwn(s', u', e.t, |s.tasks|, |u.tasks|)
  {
  }

  lemma StreamIsLocal(s: World, u: World, e: Event, s': World, u': World)
    requires SameTask(s, u, e) && Step(s, e) == Some(s') && Step(u, e) == Some(u') && e.op.StreamEnd?
    ensures SameOwn(s', u', e.t, |s.tasks|, |u.tasks|)
  {
  }

  lemma AbortIsLocal(s: World, u: World, e: Event, s': World, u': World)
    requires SameTask(s, u, e) && Step(s, e) == Some(s') && Step(u, e) == Some(u') && e.op.Abort?
    ensures SameOwn(s', u', e.t, |s.tasks|, |u.tasks|)
  {
  }

  lemma SettleIsLocal(s: World, u: World, e: Event, s': World, u': World)
    requires SameTask(s, u, e) && Step(s, e) == Some(s') && Step(u, e) == Some(u') && GroupOf(e.op) == Settlement
    ensures SameOwn(s', u', e.t, |s.tasks|, |u.tasks|)
  {
  }

  lemma StepIsLocal(s: World, u: World, e: Event, s': World, u': World)
    requires SameTask(s, u, e) && Step(s, e) == Some(s') && Step(u, e) == Some(u') && GroupOf(e.op) != Adding
    ensures SameOwn(s', u', e.t, |s.tasks|, |u.tasks|)
  {
    match GroupOf(e.op) {
      case Connecting => LockIsLocal(s, u, e, s', u');
      case Landing => DialIsLocal(s, u, e, s', u');
      case Ending =>
        if e.op.Abort? { AbortIsLocal(s, u, e, s', u'); } else { StreamIsLocal(s, u, e, s', u'); }
      case Settlement => SettleIsLocal(s, u, e, s', u');
      case Retrying => RetryIsLocal(s, u, e, s', u');
      case Switching => SwitchIsLocal(s, u, e, s', u');
      case Clearing => ClearIsLocal(s, u, e, s', u');
      case _ => GuardIsLocal(s, u, e, s', u');
    }
  }

  lemma RetryIsLocal(s: World, u: World, e: Event, s': World, u': World)
    requires SameTask(s, u, e) && Step(s, e) == Some(s') && Step(u, e) == Some(u') && GroupOf(e.op) == Retrying
    ensures SameOwn(s', u', e.t, |s.tasks|, |u.tasks|)
  {
  }

  lemma SwitchIsLocal(s: World, u: World, e: Event, s': World, u': World)
    requires SameTask(s, u, e) && Step(s, e) == Some(s') && Step(u, e) == Some(u') && GroupOf(e.op) == Switching
    ensures SameOwn(s', u', e.t, |s.tasks|, |u.tasks|)
  {
  }

  lemma ClearIsLocal(s: World, u: World, e: Event, s': World, u': World)
    requires SameTask(s, u, e) && Step(s, e) == Some(s') && Step(u, e) == Some(u') && GroupOf(e.op) == Clearing
    ensures SameOwn(s', u', e.t, |s.tasks|, |u.tasks|)
  {
  }

  lemma GuardIsLocal(s: World, u: World, e: Event, s': World, u': World)
    requires SameTask(s, u, e) && Step(s, e) == Some(s') && Step(u, e) == Some(u') && GroupOf(e.op) == Guarding
    ensures SameOwn(s', u', e.t, |s.tasks|, |u.tasks|)
  {
  }

  // ----- What preemption cannot change -----

  // The rest of a preempted step.
  function Rest(pc: Pc): Op
    requires Preempted(pc)
  {
    match pc
    case Settling(_, _) => Settle
    case RetryChecking(_) => RetryLoad
    case RetryLoaded(_) => RetryStore
    case Unflagging(_, _) => RetryUnflag
    case SwitchStoring(_) => SwitchStore
  }

  // The event leads to where it leads unpreempted, or its rest does at once.
  ghost predicate OnlyDelays(s: World, e: Event, s': World)
    requires e.t < |s.tasks|
  {
    var whole := Step(s, e.(fine := false));
    whole == Some(s') ||
    (e.t < |s'.tasks| && Preempted(s'.tasks[e.t]) &&
     Step(s', Event(Rest(s'.tasks[e.t]), e.t, false)) == whole)
  }

  // The outcome of an attempt is the same whenever it is reported.
  lemma FinishOnlyDelays(s: World, t: Task, kind: Kind, ok: bool)
    requires t < |s.tasks|
    ensures Settled(s.At(t, Settling(kind, ok)), t, kind, ok) == Settled(s, t, kind, ok)
  {
    var pc := Settling(kind, ok);
    assert s.tasks[t := pc][t := Opened] == s.tasks[t := Opened];
    assert s.tasks[t := pc][t := Done] == s.tasks[t := Done];
    if kind.Retry? {
      assert s.tasks[t := pc][t := AfterTry(kind.left, ok)] == s.tasks[t := AfterTry(kind.left, ok)];
    }
  }

  lemma LockOnlyDelays(s: World, e: Event, s': World)
    requires e.t < |s.tasks| && Step(s, e) == Some(s') && GroupOf(e.op) == Connecting
    ensures OnlyDelays(s, e, s')
  {
    FinishOnlyDelays(s, e.t, s.tasks[e.t].kind, false);
  }

  lemma DialOnlyDelays(s: World, e: Event, s': World)
    requires e.t < |s.tasks| && Step(s, e) == Some(s') && GroupOf(e.op) == Landing
    ensures OnlyDelays(s, e, s')
  {
    var pc := s.tasks[e.t];
    var s1 := s.(b := s.b.Saw(pc.client, Dialed(false)));
    FinishOnlyDelays(s1.Unlock(pc.client), e.t, pc.kind, false);
  }

  lemma EndOnlyDelays(s: World, e: Event, s': World)
    requires e.t < |s.tasks| && Step(s, e) == Some(s') && GroupOf(e.op) == Ending
    ensures OnlyDelays(s, e, s')
  {
    var pc := s.tasks[e.t];
    var s1 := if e.op.Abort? && pc.phase == Dialing then s.Unlock(pc.client) else s;
    FinishOnlyDelays(s1, e.t, pc.kind, e.op == StreamEnd(true));
  }

  lemma SettleOnlyDelays(s: World, e: Event, s': World)
    requires e.t < |s.tasks| && Step(s, e) == Some(s') && GroupOf(e.op) == Settlement
    ensures OnlyDelays(s, e, s')
  {
    if e.fine && e.op.Settle? && s.tasks[e.t].kind.Retry? {
      var left, ok := s.tasks[e.t].kind.left, s.tasks[e.t].ok;
      assert s.tasks[e.t := Unflagging(left, ok)][e.t := AfterTry(left, ok)] == s.tasks[e.t := AfterTry(left, ok)];
      assert Unflagged(s', e.t, left, ok) == Settled(s, e.t, s.tasks[e.t].kind, ok);
    }
  }

  lemma GuardedOnlyDelays(s: World, t: Task, pc: Pc, pc': Pc)
    requires LockInv(s) && t < |s.tasks| && !HoldsRead(s.tasks[t])
    ensures s.Guard(t).Unguard(t) == s && s.tasks[t := pc][t := pc'] == s.tasks[t := pc']
  {
    assert s.readers + {t} - {t} == s.readers;
  }

  lemma CheckOnlyDelays(s: World, e: Event, s': World)
    requires LockInv(s) && e.t < |s.tasks| && Step(s, e) == Some(s') && e.op == RetryCheck
    ensures OnlyDelays(s, e, s')
  {
    var left := s.tasks[e.t].left;
    GuardedOnlyDelays(s, e.t, RetryChecking(left), Done);
    GuardedOnlyDelays(s, e.t, RetryChecking(left), Resetting(left));
  }

  lemma RetryOnlyDelays(s: World, e: Event, s': World)
    requires e.t < |s.tasks| && Step(s, e) == Some(s') && GroupOf(e.op) == Retrying && e.op != RetryCheck
    ensures OnlyDelays(s, e, s')
  {
    if e.op == RetryLoad {
      var left := s.tasks[e.t].left;
      assert s.tasks[e.t := RetryLoaded(left)][e.t := Resetting(left)] == s.tasks[e.t := Resetting(left)];
    }
  }

  lemma SwitchOnlyDelays(s: World, e: Event, s': World)
    requires LockInv(s) && e.t < |s.tasks| && Step(s, e) == Some(s') && GroupOf(e.op) == Switching
    ensures OnlyDelays(s, e, s')
  {
    if e.op == SwitchToggle {
      var reopens := s.b.status == ForceClosed;
      GuardedOnlyDelays(s, e.t, SwitchStoring(reopens), if reopens then SwitchRenewing else Done);
    }
  }

  // A preempted step that is resumed before any other does what it does
  // unpreempted.
  lemma PreemptionOnlyDelays(s: World, e: Event, s': World)
    requires LockInv(s) && e.t < |s.tasks| && Step(s, e) == Some(s')
    ensures OnlyDelays(s, e, s')
  {
    match GroupOf(e.op) {
      case Connecting => LockOnlyDelays(s, e, s');
      case Landing => DialOnlyDelays(s, e, s');
      case Ending => EndOnlyDelays(s, e, s');
      case Settlement => SettleOnlyDelays(s, e, s');
      case Retrying => if e.op == RetryCheck { CheckOnlyDelays(s, e, s'); } else { RetryOnlyDelays(s, e, s'); }
      case Switching => SwitchOnlyDelays(s, e, s');
      case _ =>
    }
  }

  // ----- Only a backend that is down is retried -----

  // The task is past the load of the status.
  predicate HasChecked(pc: Pc) {
    pc.RetryChecking? || pc.RetryLoaded? || pc.Resetting?
  }

  // Event i of the run is task t's last check, and finds the backend down.
  ghost predicate FindsDown(s: World, es: seq<Event>, i: nat, t: Task) {
    && i < |es| && es[i].op == RetryCheck && es[i].t == t
    && Run(s, es[..i]).Some? && Run(s, es[..i]).value.b.status in {Closed, Unknown}
    && forall k :: i < k < |es| && es[k].t == t ==> es[k].op != RetryCheck
  }

  // Event j is its load of the flag, and finds that no retry runs.
  ghost predicate FindsClear(s: World, es: seq<Event>, i: nat, j: nat, t: Task) {
    && i <= j < |es| && es[j].t == t && (j == i || es[j].op == RetryLoad)
    && Run(s, es[..j]).Some? && !Run(s, es[..j]).value.b.retrying
  }

  ghost predicate CheckMoves(s: World, e: Event, pc: Pc, pc': Pc) {
    && (if e.op == RetryCheck then s.b.status in {Closed, Unknown} else HasChecked(pc))
    && (!pc'.RetryChecking? ==>
      (e.op in {RetryCheck, RetryLoad} && !s.b.retrying) || (!pc.RetryChecking? && e.op != RetryCheck))
  }

  lemma OwnCheckMove(s: World, e: Event, s': World)
    requires Step(s, e) == Some(s') && e.t < |s.tasks| && GroupOf(e.op) == Retrying && HasChecked(s'.tasks[e.t])
    ensures CheckMoves(s, e, s.tasks[e.t], s'.tasks[e.t])
  {
  }

  lemma OthersCheckNothing(s: World, e: Event, s': World)
    requires Step(s, e) == Some(s') && GroupOf(e.op) in {Guarding, Settlement, Switching, Clearing}
    requires e.t < |s'.tasks|
    ensures !HasChecked(s'.tasks[e.t])
  {
  }

  lemma CheckedMove(s: World, e: Event, s': World, t: Task)
    requires Step(s, e) == Some(s') && t < |s'.tasks| && HasChecked(s'.tasks[t])
    ensures t < |s.tasks|
    ensures if GroupOf(e.op) == Retrying && e.t == t then CheckMoves(s, e, s.tasks[t], s'.tasks[t])
      else s'.tasks[t] == s.tasks[t] && (e.t == t ==> GroupOf(e.op) == Adding)
  {
    if GroupOf(e.op) != Adding {
      TasksMove(s, e);
      if e.t == t {
        if GroupOf(e.op) == Retrying {
          OwnCheckMove(s, e, s');
        } else if GroupOf(e.op) in {Connecting, Landing} {
          TryChecksNothing(s, e, s');
        } else if GroupOf(e.op) == Ending {
          EndChecksNothing(s, e, s');
        } else {
          OthersCheckNothing(s, e, s');
        }
      }
    }
  }

  lemma TryChecksNothing(s: World, e: Event, s': World)
    requires Step(s, e) == Some(s') && GroupOf(e.op) in {Connecting, Landing} && e.t < |s'.tasks|
    ensures !HasChecked(s'.tasks[e.t])
  {
  }

  lemma EndChecksNothing(s: World, e: Event, s': World)
    requires Step(s, e) == Some(s') && GroupOf(e.op) == Ending && e.t < |s'.tasks|
    ensures !HasChecked(s'.tasks[e.t])
  {
  }

  lemma {:induction false} CheckedFirst(s: World, es: seq<Event>, s': World, t: Task) returns (i: nat, j: nat)
    requires s.tasks == [] && Run(s, es) == Some(s') && t < |s'.tasks| && HasChecked(s'.tasks[t])
    ensures FindsDown(s, es, i, t)
    ensures !s'.tasks[t].RetryChecking? ==> FindsClear(s, es, i, j, t)
    decreases |es|
  {
    var n := |es| - 1;
    var e, before := es[n], es[..n];
    var s1 := RunLast(s, es);
    CheckedMove(s1, e, s', t);
    if e.t == t && e.op == RetryCheck {
      i, j := n, n;
    } else {
      i, j := CheckedFirst(s, before, s1, t);
      FindsDownStill(s, es, i, t);
      if s1.tasks[t].RetryChecking? {
        j := n;
      } else {
        assert es[..j] == before[..j];
      }
    }
  }

  lemma {:induction false} FindsDownStill(s: World, es: seq<Event>, i: nat, t: Task)
    requires es != [] && FindsDown(s, es[..|es| - 1], i, t)
    requires !(es[|es| - 1].t == t && es[|es| - 1].op == RetryCheck)
    ensures FindsDown(s, es, i, t)
  {
    assert es[..|es| - 1][..i] == es[..i];
  }

  // At any interleaving a retry resets the client only after it has found the
  // backend Closed or Unknown, and then the flag clear, in its last check: it
  // leaves a backend that is up, or closed by hand, alone.
  lemma {:induction false} RetryResetsOnlyDown(s: World, es: seq<Event>, n: nat, t: Task) returns (i: nat, j: nat)
    requires s.tasks == [] && Run(s, es).Some? && n < |es| && es[n].op == RetryReset && es[n].t == t
    ensures FindsDown(s, es[..n], i, t) && FindsClear(s, es[..n], i, j, t)
  {
    RunPrefix(s, es, n);
    RunPrefix(s, es, n + 1);
    RunSplit(s, es[..n], [es[n]]);
    assert es[..n] + [es[n]] == es[..n + 1];
    i, j := CheckedFirst(s, es[..n], Run(s, es[..n]).value, t);
  }
}
