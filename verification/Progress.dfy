// The backend's lock is always given back.
module Progress {
  import opened Wrappers
  import opened Lifecycle
  import opened Runs

  // A step of a task that holds the lock: it goes on by itself, and takes no
  // guard and no write lock.
  ghost predicate HolderMoves(s: World, e: Event) {
    && GroupOf(e.op) != Adding && Step(s, e).Some? && (e.t in s.readers || s.writer == Some(e.t))
    && var s' := Step(s, e).value;
       && e.t < |s.tasks| && e.t < |s'.tasks| && s'.tasks[e.t] != s.tasks[e.t]
       && s'.readers <= s.readers && (s'.writer == s.writer || s'.writer.None?)
  }

  // An await-level run of such steps, in which no wait begins under a cancelled
  // token.
  ghost predicate Drains(s: World, es: seq<Event>)
    decreases |es|
  {
    es == [] || (HolderMoves(s, es[0]) && !es[0].fine && !Lingers(s, es[0]) && Drains(Step(s, es[0]).value, es[1..]))
  }

  predicate WaitsForMutex(pc: Pc) {
    pc.Resetting? || pc.ResetClearing? || (pc.Trying? && pc.phase == Locking)
  }

  // The steps that a reader has left, at most.
  function Work(pc: Pc): nat {
    if pc.RetryChecking? || pc.RetryLoaded? then 4
    else if pc.Resetting? then 3
    else if pc.Trying? && pc.phase == Locking then 2
    else 1
  }

  // A step of reader t that gives up its guard, or brings it closer to that.
  ghost predicate Advances(s: World, e: Event, t: Task) {
    && e.t == t < |s.tasks| && HolderMoves(s, e) && !e.fine && !Lingers(s, e)
    && var s' := Step(s, e).value;
       s'.readers == s.readers - {t} || (s'.readers == s.readers && Work(s'.tasks[t]) < Work(s.tasks[t]))
  }

  // A reader that does not wait for the mutex, or finds it free, can go on
  // whatever the other tasks wait for; a cancelled operation always can.
  lemma ReaderGoes(s: World, t: Task) returns (e: Event)
    requires LockInv(s) && t in s.readers
    requires WaitsForMutex(s.tasks[t]) ==> s.MutexFree(s.b.client)
    ensures Advances(s, e, t)
  {
    var pc := s.tasks[t];
    assert UsesCurrent(s, pc);
    if pc.Trying? {
      e := TryingGoes(s, t);
    } else if pc.RetryChecking? || pc.RetryLoaded? || pc.Resetting? {
      e := RetryGoes(s, t);
    } else if pc.Transferring? {
      e := Event(EndTransfer(false), t, false);
    } else if pc.Settling? {
      e := Event(Settle, t, false);
    } else if pc.Unflagging? {
      e := Event(RetryUnflag, t, false);
    } else {
      e := Event(if pc.SwitchStoring? then SwitchStore else ResetClear, t, false);
    }
  }

  lemma RetryGoes(s: World, t: Task) returns (e: Event)
    requires LockInv(s) && t in s.readers
    requires s.tasks[t].RetryChecking? || s.tasks[t].RetryLoaded? || (s.tasks[t].Resetting? && s.MutexFree(s.b.client))
    ensures Advances(s, e, t)
  {
    var pc := s.tasks[t];
    e := Event(if pc.RetryChecking? then RetryLoad else if pc.RetryLoaded? then RetryStore else RetryReset, t, false);
  }

  lemma TryingGoes(s: World, t: Task) returns (e: Event)
    requires LockInv(s) && t in s.readers && s.tasks[t].Trying? && UsesCurrent(s, s.tasks[t])
    requires s.tasks[t].phase == Locking ==> s.MutexFree(s.b.client)
    ensures Advances(s, e, t)
  {
    var pc := s.tasks[t];
    if pc.token in s.b.cancelled {
      e := Event(Abort, t, false);
    } else {
      match pc.phase {
        case Locking => e := Event(LockClient(false), t, false);
        case Dialing => e := Event(DialEnd(false, false), t, false);
        case Streaming => e := Event(StreamEnd(false), t, false);
      }
    }
  }

  predicate NeedsWrite(pc: Pc) {
    pc.SwitchRenewing? || pc.ResetRenewing? || pc.ProtocolWriting?
  }

  // A task that is not done waits for nothing but the lock, the client's mutex
  // and the network's answer, whatever the backend's state.
  lemma OnlyLocksHold(s: World, t: Task) returns (e: Event)
    requires LockInv(s) && t < |s.tasks| && !s.tasks[t].Done?
    requires s.writer.None? || s.writer == Some(t)
    requires NeedsWrite(s.tasks[t]) ==> s.readers == {}
    requires WaitsForMutex(s.tasks[t]) ==> s.MutexFree(s.b.client)
    ensures e.t == t && !e.fine && GroupOf(e.op) != Adding && Step(s, e).Some? && !Lingers(s, e)
    ensures t < |Step(s, e).value.tasks| && Step(s, e).value.tasks[t] != s.tasks[t]
  {
    if t in s.readers {
      e := ReaderGoes(s, t);
    } else {
      e := Event(NextOp(s.tasks[t]), t, false);
    }
  }

  // The next step of a task that holds no read guard.
  function NextOp(pc: Pc): Op
    requires !HoldsRead(pc) && !pc.Done?
  {
    match pc
    case Picked => BeginAttempt
    case Opened => BeginTransfer
    case RetrySpawned => RetryStart
    case RetryWaiting(_) => RetryCheck
    case SwitchCancelling => SwitchCancel
    case SwitchReading => SwitchToggle
    case SwitchRenewing => SwitchRenew
    case ResetCancelling => ResetCancel
    case ResetRenewing => ResetRenew
    case ProtocolCancelling => ProtocolCancel
    case ProtocolWriting => ProtocolWrite(false)
    case ProtocolClearing => ProtocolClear
  }

  // A reader goes on by itself, or waits for the mutex of another reader, who
  // goes on by itself: whatever the order of the queues, no reader waits for
  // a task that waits for the lock.
  lemma ReaderOrMutexHolderGoes(s: World, t: Task)
    requires Reachable(s) && t in s.readers
    ensures (exists e :: Advances(s, e, t)) ||
      (s.b.client in s.holders && var u := s.holders[s.b.client];
        u in s.readers && u < |s.tasks| && !WaitsForMutex(s.tasks[u]) && exists e :: Advances(s, e, u))
  {
    ReachableInv(s);
    if !WaitsForMutex(s.tasks[t]) || s.MutexFree(s.b.client) {
      var e := ReaderGoes(s, t);
    } else {
      var e := ReaderGoes(s, s.holders[s.b.client]);
    }
  }

  lemma {:induction false} ReadersDrain(s: World, t: Task) returns (es: seq<Event>)
    requires LockInv(s) && s.writer.None? && t in s.readers
    ensures Drains(s, es) && Run(s, es).Some? && Run(s, es).value.CanWrite()
    decreases |s.readers|, Work(s.tasks[t])
  {
    var u := if WaitsForMutex(s.tasks[t]) && !s.MutexFree(s.b.client) then s.holders[s.b.client] else t;
    var e := ReaderGoes(s, u);
    var s' := Step(s, e).value;
    LockInvStep(s, e);
    assert |s.readers - {u}| == |s.readers| - 1;
    var rest: seq<Event> := [];
    if s'.readers == {} {
    } else if s'.readers == s.readers {
      rest := ReadersDrain(s', u);
    } else {
      var v :| v in s'.readers;
      rest := ReadersDrain(s', v);
    }
    RunCons(s, e, rest);
    es := [e] + rest;
    assert es[1..] == rest;
  }

  lemma DrainOf(s: World) returns (es: seq<Event>)
    requires LockInv(s)
    ensures Drains(s, es) && Run(s, es).Some? && Run(s, es).value.CanWrite()
  {
    if s.writer.Some? {
      var e := Event(ProtocolClear, s.writer.value, false);
      RunCons(s, e, []);
      es := [e];
      assert [e] + [] == [e];
    } else if s.readers == {} {
      es := [];
    } else {
      var t :| t in s.readers;
      es := ReadersDrain(s, t);
    }
  }

  // From every reachable world in which the lock is held, its holders alone
  // can give it back, with a network that answers: no queueing of readers and
  // writers leads to a deadlock.
  lemma {:induction false} NoDeadlock(s: World)
    requires Reachable(s)
    ensures exists es :: Drains(s, es) && Run(s, es).Some? && Run(s, es).value.CanWrite()
  {
    ReachableInv(s);
    var es := DrainOf(s);
  }
}
