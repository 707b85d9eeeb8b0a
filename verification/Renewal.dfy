// Backends that are down with a cancelled token, and the exact condition under
// which a backend that is down can come back unattended.
module Renewal {
  import opened Wrappers
  import opened Backends
  import opened Lifecycle
  import opened Runs
  import opened Progress
  import opened LifecycleTheorems
  import opened Recovery
  import opened Revival

  // A request that will renew the token when nothing holds the lock.
  predicate Renewer(s: World, t: Task) {
    t < |s.tasks| &&
    s.tasks[t] in {SwitchRenewing, ResetCancelling, ResetClearing, ResetRenewing, ProtocolCancelling, ProtocolWriting}
  }

  // A task that can still restore the backend after the operations under the
  // cancelled token have been dropped.
  predicate Survives(s: World, t: Task) {
    t < |s.tasks| &&
    match s.tasks[t]
    case Picked => true
    case RetrySpawned => true
    case RetryWaiting(_) => true
    case SwitchRenewing => true
    case RetryChecking(left) => left > 1
    case RetryLoaded(left) => left > 1
    case Resetting(left) => left > 1
    case Trying(Attempt, _, _, _) => true
    case Trying(Retry(left), _, _, _) => left > 1
    case Settling(Attempt, ok) => !ok
    case Settling(Retry(left), ok) => !ok && left > 1
    case Unflagging(left, ok) => !ok && left > 1
    case _ => false
  }

  ghost predicate WillRenew(s: World) {
    (exists t :: Renewer(s, t)) && forall t :: !Storing(s, t)
  }

  // With a cancelled token, a retry has connected and need not wait; or the
  // token will be renewed, and some task survives until then.
  ghost predicate CanRevive(s: World) {
    if Live(s) then HasHope(s, {}, true)
    else
      || (exists t: Task :: t < |s.tasks| && Restoring(s.tasks[t], false))
      || (WillRenew(s) && exists t :: Survives(s, t))
  }

  // ----- Without it the backend stays down -----

  ghost predicate Lost(s: World, late: set<Task>) {
    && !Live(s) && Down(s) && CutOff(s, late) && LateTrying(s, late)
    && (WillRenew(s) ==> forall t :: !Survives(s, t))
  }

  ghost predicate LateTrying(s: World, late: set<Task>) {
    forall t :: t in late ==> t < |s.tasks| && s.tasks[t].Trying? && s.tasks[t].phase != Locking
  }

  lemma LateStep(s: World, e: Event, late: set<Task>)
    requires LateTrying(s, late) && Step(s, e).Some?
    ensures LateTrying(Step(s, e).value, Late(s, e, late))
  {
    forall t | t in Late(s, e, late)
      ensures var s' := Step(s, e).value; t < |s'.tasks| && s'.tasks[t].Trying? && s'.tasks[t].phase != Locking
    {
      if !(GroupOf(e.op) in {Connecting, Landing, Ending} && t == e.t) {
        assert t in late;
        OthersKeep(s, e, t);
      }
    }
  }

  // No step but an administrator's gives a request to renew, or takes the
  // place of a store; and no step gives a survivor where there was none.
  ghost predicate LostMoves(s: World, s': World, t: Task) {
    && t < |s.tasks| && t < |s'.tasks|
    && (Renewer(s', t) ==> Renewer(s, t)) && (Storing(s, t) ==> Storing(s', t))
    && (!Survives(s, t) ==> !Survives(s', t) && s'.tasks == s.tasks[t := s'.tasks[t]])
    && s'.b.status in {Normal, Closed, Unknown}
  }

  lemma ConnectLost(s: World, e: Event)
    requires Step(s, e).Some? && GroupOf(e.op) in {Connecting, Landing} && Down(s)
    ensures LostMoves(s, Step(s, e).value, e.t)
  {
  }

  lemma EndLost(s: World, e: Event)
    requires Step(s, e).Some? && GroupOf(e.op) == Ending && Down(s)
    requires e.op == StreamEnd(true) ==> !(s.tasks[e.t].Trying? && s.tasks[e.t].kind.Retry?)
    ensures LostMoves(s, Step(s, e).value, e.t)
  {
  }

  lemma OtherLost(s: World, e: Event)
    requires Step(s, e).Some? && GroupOf(e.op) in {Guarding, Settlement} && Down(s)
    requires e.t < |s.tasks| ==> !Restoring(s.tasks[e.t], true)
    ensures LostMoves(s, Step(s, e).value, e.t)
  {
  }

  lemma RetryLost(s: World, e: Event)
    requires Step(s, e).Some? && GroupOf(e.op) == Retrying && Down(s)
    ensures LostMoves(s, Step(s, e).value, e.t)
  {
  }

  lemma LostMove(s: World, e: Event, late: set<Task>)
    requires LockInv(s) && Lost(s, late) && Step(s, e).Some? && !Attends(e)
    requires !((e.op.DialEnd? || e.op.StreamEnd?) && e.t in late)
    ensures LostMoves(s, Step(s, e).value, e.t) && MovesOne(s, Step(s, e).value, e.t)
  {
    assert GroupOf(e.op) != Adding;
    TasksMove(s, e);
    assert !Restoring(s.tasks[e.t], e.t in late);
    if GroupOf(e.op) in {Connecting, Landing} {
      ConnectLost(s, e);
    } else if GroupOf(e.op) == Ending {
      EndLost(s, e);
    } else if GroupOf(e.op) == Retrying {
      RetryLost(s, e);
    } else if GroupOf(e.op) in {Switching, Clearing} {
    } else {
      OtherLost(s, e);
    }
  }

  // Without a renewal it stays lost.
  lemma LostKeeps(s: World, e: Event, s': World, late: set<Task>)
    requires Lost(s, late) && Step(s, e) == Some(s') && LostMoves(s, s', e.t) && MovesOne(s, s', e.t)
    ensures WillRenew(s') ==> forall t :: !Survives(s', t)
  {
    if WillRenew(s') {
      var r :| Renewer(s', r);
      assert Renewer(s, r);
      forall t: Task
        ensures !Storing(s, t)
      {
        assert !Storing(s', t);
      }
      assert WillRenew(s);
      forall t: Task
        ensures !Survives(s', t)
      {
        assert !Survives(s, t) && !Survives(s, e.t);
      }
    }
  }

  // A renewal that finds no survivor leaves no hope.
  lemma RenewedHopeless(s: World, e: Event, s': World, late: set<Task>)
    requires WorldInv(s) && Lost(s, late) && Step(s, e) == Some(s') && Renews(e.op)
    requires LostMoves(s, s', e.t) && MovesOne(s, s', e.t)
    ensures Hopeless(s', late, true)
  {
    assert s.CanWrite() && Renewer(s, e.t);
    forall t: Task
      ensures !Storing(s, t)
    {
      if Storing(s, t) {
        assert HoldsRead(s.tasks[t]);
      }
    }
    assert WillRenew(s);
    forall t: Task
      ensures !Hopeful(s', t, late, true) && !Renewing(s', t) && t !in late
    {
      assert !Survives(s, t) && !Survives(s, e.t);
      assert t < |s.tasks| ==> (HoldsRead(s.tasks[t]) <==> t in s.readers);
    }
  }

  lemma LostStep(s: World, e: Event, late: set<Task>)
    requires WorldInv(s) && Lost(s, late) && Step(s, e).Some? && !Attends(e)
    requires !((e.op.DialEnd? || e.op.StreamEnd?) && e.t in late)
    ensures var s' := Step(s, e).value; Lost(s', Late(s, e, late)) || Hopeless(s', Late(s, e, late), true)
  {
    var s' := Step(s, e).value;
    LostMove(s, e, late);
    if Renews(e.op) {
      RenewedHopeless(s, e, s', late);
    } else {
      CutOffStep(s, e, late);
      LateStep(s, e, late);
      LostKeeps(s, e, s', late);
    }
  }

  lemma {:induction false} LostStays(s: World, es: seq<Event>, late: set<Task>)
    requires WorldInv(s) && Lost(s, late) && Run(s, es).Some? && Unattended(es) && Prompt(s, es, late)
    ensures Down(Run(s, es).value)
    decreases |es|
  {
    if es != [] {
      var e, s' := es[0], Step(s, es[0]).value;
      WorldInvStep(s, e);
      LostStep(s, e, late);
      if Lost(s', Late(s, e, late)) {
        LostStays(s', es[1..], Late(s, e, late));
      } else {
        HopelessStays(s', es[1..], Late(s, e, late), true);
      }
    }
  }

  // ----- With it the backend can come back -----

  ghost predicate Cut(s: World) {
    WorldInv(s) && Down(s) && !Live(s)
  }

  // A survivor that holds no guard.
  predicate Parked(s: World, t: Task) {
    t < |s.tasks| && (s.tasks[t].Picked? || s.tasks[t].RetrySpawned? || s.tasks[t].RetryWaiting? ||
      s.tasks[t].SwitchRenewing?)
  }

  lemma RestoringRevives(s: World, t: Task) returns (es: seq<Event>)
    requires t < |s.tasks| && Restoring(s.tasks[t], false)
    ensures Revives(s, es, true)
  {
    if s.tasks[t].Trying? {
      es := StreamRevives(s, t, true);
    } else {
      es := ReviveNow(s, Event(Settle, t, false), true);
    }
  }

  // A renewed token leaves a parked task with hope.
  lemma RenewedRevives(s: World, t: Task, e: Event) returns (es: seq<Event>)
    requires Cut(s) && Parked(s, t) && e.t != t && !Attends(e) && !e.fine && !Lingers(s, e) && GroupOf(e.op) != Adding
    requires Step(s, e).Some? && Live(Step(s, e).value) && Down(Step(s, e).value) && !s.tasks[t].SwitchRenewing?
    ensures Revives(s, es, true)
  {
    OthersKeep(s, e, t);
    WorldInvStep(s, e);
    es := HopefulRevives(Step(s, e).value, t, true);
    es := ReviveAfter(s, e, es, true);
  }

  lemma ResetRevivesParked(s: World, t: Task, r: Task) returns (es: seq<Event>)
    requires Cut(s) && s.CanWrite() && Parked(s, t) && !s.tasks[t].SwitchRenewing?
    requires r < |s.tasks| && (s.tasks[r].ResetCancelling? || s.tasks[r].ResetRenewing?)
    ensures Revives(s, es, true)
  {
    if s.tasks[r].ResetRenewing? {
      es := RenewRevivesParked(s, t, r);
    } else {
      var e := Event(ResetCancel, r, false);
      var s1 := Step(s, e).value;
      WorldInvStep(s, e);
      es := ClearRevivesParked(s1, t, r);
      es := ReviveAfter(s, e, es, true);
    }
  }

  lemma ClearRevivesParked(s: World, t: Task, r: Task) returns (es: seq<Event>)
    requires Cut(s) && s.writer.None? && s.readers == {r} && Parked(s, t) && !s.tasks[t].SwitchRenewing?
    requires r < |s.tasks| && s.tasks[r].ResetClearing?
    ensures Revives(s, es, true)
  {
    var e := Event(ResetClear, r, false);
    var s1 := Step(s, e).value;
    WorldInvStep(s, e);
    es := RenewRevivesParked(s1, t, r);
    es := ReviveAfter(s, e, es, true);
  }

  lemma RenewRevivesParked(s: World, t: Task, r: Task) returns (es: seq<Event>)
    requires Cut(s) && s.CanWrite() && Parked(s, t) && !s.tasks[t].SwitchRenewing?
    requires r < |s.tasks| && s.tasks[r].ResetRenewing?
    ensures Revives(s, es, true)
  {
    es := RenewedRevives(s, t, Event(ResetRenew, r, false));
  }

  lemma ProtocolRevivesParked(s: World, t: Task, r: Task) returns (es: seq<Event>)
    requires Cut(s) && s.CanWrite() && Parked(s, t) && !s.tasks[t].SwitchRenewing?
    requires r < |s.tasks| && (s.tasks[r].ProtocolCancelling? || s.tasks[r].ProtocolWriting?)
    ensures Revives(s, es, true)
  {
    if s.tasks[r].ProtocolWriting? {
      es := WritingRevivesParked(s, t, r);
    } else {
      var e := Event(ProtocolCancel, r, false);
      var s1 := Step(s, e).value;
      WorldInvStep(s, e);
      es := WritingRevivesParked(s1, t, r);
      es := ReviveAfter(s, e, es, true);
    }
  }

  lemma WritingRevivesParked(s: World, t: Task, r: Task) returns (es: seq<Event>)
    requires Cut(s) && s.CanWrite() && Parked(s, t) && !s.tasks[t].SwitchRenewing?
    requires r < |s.tasks| && s.tasks[r].ProtocolWriting?
    ensures Revives(s, es, true)
  {
    es := RenewedRevives(s, t, Event(ProtocolWrite(true), r, false));
  }

  lemma SwitchRevives(s: World, r: Task) returns (es: seq<Event>)
    requires Cut(s) && s.CanWrite() && r < |s.tasks| && s.tasks[r].SwitchRenewing?
    ensures Revives(s, es, true)
  {
    var e := Event(SwitchRenew, r, false);
    var s1 := Step(s, e).value;
    WorldInvStep(s, e);
    es := HopefulRevives(s1, |s.tasks|, true);
    es := ReviveAfter(s, e, es, true);
  }

  // When nothing holds the lock, the token is renewed.
  lemma ParkedRevives(s: World, t: Task, r: Task) returns (es: seq<Event>)
    requires Cut(s) && s.CanWrite() && Parked(s, t) && Renewer(s, r)
    ensures Revives(s, es, true)
  {
    if s.tasks[t].SwitchRenewing? {
      es := SwitchRevives(s, t);
    } else if s.tasks[r].SwitchRenewing? {
      es := SwitchRevives(s, r);
    } else if s.tasks[r].ProtocolCancelling? || s.tasks[r].ProtocolWriting? {
      es := ProtocolRevivesParked(s, t, r);
    } else {
      assert !HoldsRead(s.tasks[r]);
      es := ResetRevivesParked(s, t, r);
    }
  }

  // A step of a holder of the lock that stores no switch of status.
  ghost predicate QuietMoves(s: World, s': World, t: Task) {
    && s'.b.token == s.b.token && s.b.cancelled <= s'.b.cancelled && s'.b.status in {s.b.status, Normal, Closed}
    && t < |s'.tasks| && !Storing(s', t) && (Renewer(s, t) ==> Renewer(s', t))
  }

  lemma HolderQuiet(s: World, e: Event)
    requires LockInv(s) && HolderMoves(s, e) && !e.fine && !Storing(s, e.t)
    ensures QuietMoves(s, Step(s, e).value, e.t) && !Attends(e)
  {
    assert HoldsRead(s.tasks[e.t]) || HoldsWrite(s.tasks[e.t]);
    if GroupOf(e.op) in {Connecting, Landing, Ending} {
      ConnectTokens(s, e);
      if GroupOf(e.op) != Ending {
        ConnectQuiet(s, e);
      }
    }
  }

  lemma ConnectQuiet(s: World, e: Event)
    requires Step(s, e).Some? && GroupOf(e.op) in {Connecting, Landing} && e.t < |s.tasks|
    ensures var s' := Step(s, e).value;
      s'.b.status in {s.b.status, Normal, Closed} && e.t < |s'.tasks| && !Storing(s', e.t) && !Renewer(s, e.t)
  {
  }

  // As the holders give the lock back, the parked task and the request to
  // renew stay, unless the backend comes back before.
  lemma {:induction false} DrainedRevives(s: World, t: Task, r: Task, drain: seq<Event>) returns (es: seq<Event>)
    requires Cut(s) && Parked(s, t) && Renewer(s, r) && forall u :: !Storing(s, u)
    requires Drains(s, drain) && Run(s, drain).Some? && Run(s, drain).value.CanWrite()
    ensures Revives(s, es, true)
    decreases |drain|
  {
    if drain == [] {
      es := ParkedRevives(s, t, r);
    } else {
      var e := drain[0];
      var s' := Step(s, e).value;
      DrainStep(s, t, r, e);
      if s'.b.status == Normal {
        es := ReviveNow(s, e, true);
      } else {
        es := DrainedRevives(s', t, r, drain[1..]);
        es := ReviveAfter(s, e, es, true);
      }
    }
  }

  lemma DrainStep(s: World, t: Task, r: Task, e: Event)
    requires Cut(s) && Parked(s, t) && Renewer(s, r) && (forall u :: !Storing(s, u)) && HolderMoves(s, e) && !e.fine
    ensures !Attends(e)
    ensures var s' := Step(s, e).value;
      && (s'.b.status == Normal || Cut(s')) && Parked(s', t) && Renewer(s', r) && forall u :: !Storing(s', u)
  {
    var s' := Step(s, e).value;
    assert HoldsRead(s.tasks[e.t]) || HoldsWrite(s.tasks[e.t]);
    HolderQuiet(s, e);
    WorldInvStep(s, e);
    TasksMove(s, e);
    forall u: Task
      ensures !Storing(s', u)
    {
      assert !Storing(s, u);
    }
  }

  // A step of a task that stores no switch and asks for no renewal.
  lemma StaysQuiet(s: World, e: Event, s': World)
    requires Step(s, e) == Some(s') && GroupOf(e.op) != Adding && e.t < |s.tasks| && forall u :: !Storing(s, u)
    requires !Renewer(s, e.t) && !Storing(s', e.t)
    ensures forall u :: !Storing(s', u)
    ensures forall r :: Renewer(s, r) ==> Renewer(s', r)
  {
    TasksMove(s, e);
    forall u: Task
      ensures !Storing(s', u) && (Renewer(s, u) ==> Renewer(s', u))
    {
      assert !Storing(s, u);
    }
  }

  predicate Drops(pc: Pc) {
    pc.Trying? || pc.Settling? || pc.Unflagging?
  }

  // A survivor that holds a guard parks, by being dropped, or leaves its place
  // to the retry that it spawns.
  lemma Dropped(s: World, t: Task) returns (e: Event, s': World, p: Task)
    requires Cut(s) && Survives(s, t) && Drops(s.tasks[t]) && forall u :: !Storing(s, u)
    ensures !Attends(e) && !e.fine && !Lingers(s, e) && Step(s, e) == Some(s') && Cut(s') && Parked(s', p)
    ensures forall r :: Renewer(s, r) ==> Renewer(s', r)
    ensures forall u :: !Storing(s', u)
  {
    assert UsesCurrent(s, s.tasks[t]);
    var pc := s.tasks[t];
    e := Event(if pc.Trying? then Abort else if pc.Settling? then Settle else RetryUnflag, t, false);
    s' := Step(s, e).value;
    p := if !pc.Unflagging? && pc.kind.Attempt? then |s.tasks| else t;
    WorldInvStep(s, e);
    StaysQuiet(s, e, s');
  }

  lemma WillRenewRevives(s: World, t: Task, r: Task) returns (es: seq<Event>)
    requires Cut(s) && Parked(s, t) && Renewer(s, r) && forall u :: !Storing(s, u)
    ensures Revives(s, es, true)
  {
    var drain := DrainOf(s);
    es := DrainedRevives(s, t, r, drain);
  }

  lemma DroppedRevives(s: World, t: Task, r: Task) returns (es: seq<Event>)
    requires Cut(s) && Survives(s, t) && Drops(s.tasks[t])
    requires Renewer(s, r) && forall u :: !Storing(s, u)
    ensures Revives(s, es, true)
  {
    var e, s', p := Dropped(s, t);
    es := WillRenewRevives(s', p, r);
    es := ReviveAfter(s, e, es, true);
  }

  // A retry that has not begun its attempt begins it, and is dropped.
  lemma FreeResettingRevives(s: World, t: Task, r: Task) returns (es: seq<Event>)
    requires Cut(s) && t < |s.tasks| && s.tasks[t].Resetting? && s.tasks[t].left > 1 && s.MutexFree(s.b.client)
    requires Renewer(s, r) && forall u :: !Storing(s, u)
    ensures Revives(s, es, true)
  {
    var e := Event(RetryReset, t, false);
    var s' := Step(s, e).value;
    WorldInvStep(s, e);
    StaysQuiet(s, e, s');
    es := DroppedRevives(s', t, r);
    es := ReviveAfter(s, e, es, true);
  }

  lemma ResettingRevives(s: World, t: Task, r: Task) returns (es: seq<Event>)
    requires Cut(s) && t < |s.tasks| && s.tasks[t].Resetting? && s.tasks[t].left > 1
    requires Renewer(s, r) && forall u :: !Storing(s, u)
    ensures Revives(s, es, true)
  {
    if s.MutexFree(s.b.client) {
      es := FreeResettingRevives(s, t, r);
    } else {
      var u := s.holders[s.b.client];
      var e, s' := DialerDropped(s, u, t, r);
      es := FreeResettingRevives(s', t, r);
      es := ReviveAfter(s, e, es, true);
    }
  }

  // Whoever dials is dropped, which frees the mutex.
  lemma DialerDropped(s: World, u: Task, t: Task, r: Task) returns (e: Event, s': World)
    requires Cut(s) && s.b.client in s.holders && s.holders[s.b.client] == u && t < |s.tasks| && s.tasks[t].Resetting?
    requires Renewer(s, r) && forall v :: !Storing(s, v)
    ensures !Attends(e) && !e.fine && !Lingers(s, e) && Step(s, e) == Some(s') && Cut(s')
    ensures s'.MutexFree(s'.b.client) && t < |s'.tasks| && s'.tasks[t] == s.tasks[t] && Renewer(s', r)
    ensures forall v :: !Storing(s', v)
  {
    assert UsesCurrent(s, s.tasks[u]);
    e := Event(Abort, u, false);
    s' := Step(s, e).value;
    WorldInvStep(s, e);
    StaysQuiet(s, e, s');
  }

  // The world after a step of task u that keeps task t, the request to renew,
  // and that no switch is preempted.
  ghost predicate Keeps(s: World, s': World, e: Event, t: Task, r: Task) {
    && !Attends(e) && !e.fine && !Lingers(s, e) && Step(s, e) == Some(s') && Cut(s')
    && t < |s.tasks| && t < |s'.tasks| && s'.tasks[t] == s.tasks[t] && Renewer(s', r)
    && forall v :: !Storing(s', v)
  }

  // The end of a retry clears the flag.
  lemma EndClearsFlag(s: World, u: Task, t: Task, r: Task) returns (e: Event, s': World)
    requires Cut(s) && u < |s.tasks| && InRetry(s.tasks[u]) && Drops(s.tasks[u]) && !Restoring(s.tasks[u], false)
    requires t < |s.tasks| && t != u && Renewer(s, r) && forall v :: !Storing(s, v)
    ensures Keeps(s, s', e, t, r) && !s'.b.retrying
  {
    var pc := s.tasks[u];
    assert UsesCurrent(s, pc);
    e := Event(if pc.Trying? then Abort else if pc.Settling? then Settle else RetryUnflag, u, false);
    s' := Step(s, e).value;
    WorldInvStep(s, e);
    StaysQuiet(s, e, s');
  }

  lemma ResetKeeps(s: World, u: Task, t: Task, r: Task) returns (e: Event, s': World)
    requires Cut(s) && u < |s.tasks| && s.tasks[u].Resetting? && s.MutexFree(s.b.client)
    requires t < |s.tasks| && t != u && Renewer(s, r) && forall v :: !Storing(s, v)
    ensures Keeps(s, s', e, t, r) && u < |s'.tasks| && InRetry(s'.tasks[u]) && Drops(s'.tasks[u])
  {
    e := Event(RetryReset, u, false);
    s' := Step(s, e).value;
    WorldInvStep(s, e);
    StaysQuiet(s, e, s');
  }

  lemma FreeCheckingRevives(s: World, t: Task, r: Task) returns (es: seq<Event>)
    requires Cut(s) && !s.b.retrying && t < |s.tasks| && s.tasks[t].RetryChecking? && s.tasks[t].left > 1
    requires Renewer(s, r) && forall u :: !Storing(s, u)
    ensures Revives(s, es, true)
  {
    var e := Event(RetryLoad, t, false);
    var s' := Step(s, e).value;
    WorldInvStep(s, e);
    StaysQuiet(s, e, s');
    es := ResettingRevives(s', t, r);
    es := ReviveAfter(s, e, es, true);
  }

  // A retry that has loaded the status goes on once the flag is clear.
  lemma EndedRevives(s: World, t: Task, u: Task, r: Task) returns (es: seq<Event>)
    requires Cut(s) && t < |s.tasks| && s.tasks[t].RetryChecking? && s.tasks[t].left > 1
    requires u < |s.tasks| && InRetry(s.tasks[u]) && Drops(s.tasks[u])
    requires Renewer(s, r) && forall v :: !Storing(s, v)
    ensures Revives(s, es, true)
  {
    if Restoring(s.tasks[u], false) {
      es := RestoringRevives(s, u);
    } else {
      var e, s' := EndClearsFlag(s, u, t, r);
      es := FreeCheckingRevives(s', t, r);
      es := ReviveAfter(s, e, es, true);
    }
  }

  lemma CheckingRevives(s: World, t: Task, r: Task) returns (es: seq<Event>)
    requires Cut(s) && t < |s.tasks| && s.tasks[t].RetryChecking? && s.tasks[t].left > 1
    requires Renewer(s, r) && forall u :: !Storing(s, u)
    ensures Revives(s, es, true)
  {
    if !s.b.retrying {
      es := FreeCheckingRevives(s, t, r);
    } else {
      var u: Task :| u < |s.tasks| && InRetry(s.tasks[u]);
      if Drops(s.tasks[u]) {
        es := EndedRevives(s, t, u, r);
      } else if s.MutexFree(s.b.client) {
        es := BesideResettingRevives(s, t, u, r);
      } else {
        es := DialerRevives(s, t, r);
      }
    }
  }

  lemma BesideResettingRevives(s: World, t: Task, u: Task, r: Task) returns (es: seq<Event>)
    requires Cut(s) && t < |s.tasks| && s.tasks[t].RetryChecking? && s.tasks[t].left > 1 && s.MutexFree(s.b.client)
    requires u < |s.tasks| && s.tasks[u].Resetting? && Renewer(s, r) && forall v :: !Storing(s, v)
    ensures Revives(s, es, true)
  {
    var e, s' := ResetKeeps(s, u, t, r);
    es := EndedRevives(s', t, u, r);
    es := ReviveAfter(s, e, es, true);
  }

  // Whoever dials survives by its retry, or clears the flag.
  lemma DialerRevives(s: World, t: Task, r: Task) returns (es: seq<Event>)
    requires Cut(s) && t < |s.tasks| && s.tasks[t].RetryChecking? && s.tasks[t].left > 1
    requires !s.MutexFree(s.b.client) && Renewer(s, r) && forall u :: !Storing(s, u)
    ensures Revives(s, es, true)
  {
    var v := s.holders[s.b.client];
    assert Lifecycle.Dials(s.tasks[v]);
    if s.tasks[v].kind.Attempt? {
      es := DroppedRevives(s, v, r);
    } else {
      es := EndedRevives(s, t, v, r);
    }
  }

  lemma SurvivorRevives(s: World, t: Task, r: Task) returns (es: seq<Event>)
    requires Cut(s) && Survives(s, t) && Renewer(s, r) && forall u :: !Storing(s, u)
    ensures Revives(s, es, true)
  {
    if Parked(s, t) {
      es := WillRenewRevives(s, t, r);
    } else if s.tasks[t].Resetting? {
      es := ResettingRevives(s, t, r);
    } else if s.tasks[t].RetryChecking? {
      es := CheckingRevives(s, t, r);
    } else if s.tasks[t].RetryLoaded? {
      es := LoadedRevives(s, t, r);
    } else {
      es := DroppedRevives(s, t, r);
    }
  }

  lemma LoadedRevives(s: World, t: Task, r: Task) returns (es: seq<Event>)
    requires Cut(s) && Survives(s, t) && s.tasks[t].RetryLoaded? && Renewer(s, r) && forall u :: !Storing(s, u)
    ensures Revives(s, es, true)
  {
    var e := Event(RetryStore, t, false);
    var s' := Step(s, e).value;
    WorldInvStep(s, e);
    StaysQuiet(s, e, s');
    es := ResettingRevives(s', t, r);
    es := ReviveAfter(s, e, es, true);
  }

  // ----- The exact conditions -----

  // A reachable backend that is down stays down in every unattended run,
  // whatever the network answers and at any interleaving, and already at await
  // level, if and only if it has no hope.
  lemma {:induction false} DownStaysIffNoHope(s: World)
    requires Reachable(s) && Down(s)
    ensures !HasHope(s, {}, false) <==>
      forall es :: Unattended(es) && Run(s, es).Some? ==> Run(s, es).value.b.status != Normal
    ensures !HasHope(s, {}, false) <==> forall es :: !Revives(s, es, false)
  {
    ReachableInv(s);
    if HasHope(s, {}, false) {
      var es := HopeRevives(s, false);
    } else {
      forall es | Unattended(es) && Run(s, es).Some?
        ensures Run(s, es).value.b.status != Normal
      {
        HopelessStays(s, es, {}, false);
      }
    }
  }

  // With a network that answers no wait within the poll that would drop it, it
  // stays down if and only if it cannot come back, which depends on the token:
  // at any interleaving, and at await level already in runs in which no wait
  // begins under a cancelled token.
  lemma {:induction false} DownStaysIffHopeless(s: World)
    requires Reachable(s) && Down(s)
    ensures !CanRevive(s) <==>
      forall es :: Unattended(es) && Prompt(s, es, {}) && Run(s, es).Some? ==> Run(s, es).value.b.status != Normal
    ensures !CanRevive(s) <==> forall es :: !Revives(s, es, true)
  {
    ReachableInv(s);
    if CanRevive(s) {
      var es := CanReviveRevives(s);
      NeverLingersIsPrompt(s, es);
    } else {
      forall es | Unattended(es) && Prompt(s, es, {}) && Run(s, es).Some?
        ensures Run(s, es).value.b.status != Normal
      {
        CannotReviveStays(s, es);
      }
      forall es
        ensures !Revives(s, es, true)
      {
        if Revives(s, es, true) {
          NeverLingersIsPrompt(s, es);
        }
      }
    }
  }

  lemma CanReviveRevives(s: World) returns (es: seq<Event>)
    requires WorldInv(s) && Down(s) && CanRevive(s)
    ensures Revives(s, es, true)
  {
    if Live(s) {
      es := HopeRevives(s, true);
    } else if t: Task :| t < |s.tasks| && Restoring(s.tasks[t], false) {
      es := RestoringRevives(s, t);
    } else {
      var t :| Survives(s, t);
      var r :| Renewer(s, r);
      es := SurvivorRevives(s, t, r);
    }
  }

  lemma {:induction false} CannotReviveStays(s: World, es: seq<Event>)
    requires WorldInv(s) && Down(s) && !CanRevive(s)
    requires Unattended(es) && Prompt(s, es, {}) && Run(s, es).Some?
    ensures Run(s, es).value.b.status != Normal
  {
    if Live(s) {
      HopelessStays(s, es, {}, true);
    } else {
      LostStays(s, es, {});
    }
  }
}
