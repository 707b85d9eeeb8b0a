// Backends that are down: with hope they can come back unattended, and without
// it they stay down. With a network that is `prompt` to no wait begun under a
// cancelled token, this is about live tokens.
module Revival {
  import opened Wrappers
  import opened Connector
  import opened Backends
  import opened Lifecycle
  import opened Runs
  import opened Recovery

  // Nothing is asked of an administrator, and no status is toggled.
  predicate Attends(e: Event) {
    e.op in {AskSwitch, AskReset, AskProtocol} || Toggles(e)
  }

  predicate Unattended(es: seq<Event>) {
    forall i :: 0 <= i < |es| ==> !Attends(es[i])
  }

  // A reset is about to clear the client.
  predicate Clears(s: World, r: Task) {
    r < |s.tasks| && (s.tasks[r].ResetCancelling? || s.tasks[r].ResetClearing?)
  }

  // Task t can still restore the backend by itself, or leave that to another.
  // A retry on its last try is lost if it finds the client poisoned. With a
  // network that is `prompt` to no wait begun under a cancelled token it is
  // lost too if it begins to wait under one; with any other network it is not
  // while a reset may clear the client.
  ghost predicate Hopeful(s: World, t: Task, late: set<Task>, prompt: bool) {
    t < |s.tasks| &&
    match s.tasks[t]
    case Picked => true
    case RetrySpawned => true
    case RetryWaiting(_) => true
    case RetryChecking(_) => true
    case RetryLoaded(_) => true
    case Resetting(_) => true
    case Trying(Attempt, _, _, _) => true
    case Trying(Retry(left), phase, _, _) =>
      || left > 1
      || (if prompt
          then if phase == Locking then Live(s) && s.b.Current() != Poisoned else t !in late
          else phase == Locking ==> s.b.Current() != Poisoned || exists r :: Clears(s, r))
    case Settling(Attempt, ok) => !ok
    case Settling(Retry(left), ok) => ok || left > 1
    case Unflagging(left, ok) => !ok && left > 1
    case _ => false
  }

  predicate Renewing(s: World, t: Task) {
    t < |s.tasks| && s.tasks[t].SwitchRenewing?
  }

  predicate Storing(s: World, t: Task) {
    t < |s.tasks| && s.tasks[t].SwitchStoring?
  }

  // Some task can; or a status switch, no other of which is preempted before
  // its store, is about to renew the token and spawn one that can.
  ghost predicate HasHope(s: World, late: set<Task>, prompt: bool) {
    (exists t :: Hopeful(s, t, late, prompt)) ||
    ((exists t :: Renewing(s, t)) && forall t :: !Storing(s, t))
  }

  // ----- Without hope it stays down -----

  ghost predicate Hopeless(s: World, late: set<Task>, prompt: bool) {
    && Down(s) && !HasHope(s, late, prompt)
    && (forall t :: t in late ==> t < |s.tasks| && s.tasks[t].Trying? && s.tasks[t].phase != Locking && !Live(s))
  }

  // A step of a hopeless task leads to no hope, and keeps the client poisoned
  // or its token cancelled.
  ghost predicate HopelessMoves(s: World, e: Event, s': World, late: set<Task>, prompt: bool) {
    && e.t < |s.tasks| && e.t < |s'.tasks| && s'.tasks == s.tasks[e.t := s'.tasks[e.t]] && Down(s')
    && !Hopeful(s', e.t, Late(s, e, late), prompt) && !s'.tasks[e.t].SwitchRenewing?
    && (s.tasks[e.t].SwitchStoring? ==> s'.tasks[e.t].SwitchStoring?)
    && (s.b.Current() == Poisoned ==>
          || s'.b.Current() == Poisoned || s.CanWrite() || s.writer.Some?
          || if prompt then !Live(s') else Clears(s, e.t))
    && (Clears(s', e.t) ==> Clears(s, e.t))
    && (e.t in Late(s, e, late) ==> s'.tasks[e.t].Trying? && s'.tasks[e.t].phase != Locking && !Live(s'))
  }

  lemma ConnectHopeless(s: World, e: Event, late: set<Task>, prompt: bool)
    requires WorldInv(s) && Hopeless(s, late, prompt) && Step(s, e).Some?
    requires GroupOf(e.op) in {Connecting, Landing, Ending}
    requires prompt ==> !((e.op.DialEnd? || e.op.StreamEnd?) && e.t in late)
    ensures HopelessMoves(s, e, Step(s, e).value, late, prompt)
  {
    assert UsesCurrent(s, s.tasks[e.t]) && !Hopeful(s, e.t, late, prompt);
  }

  lemma SwitchHopeless(s: World, e: Event, late: set<Task>, prompt: bool)
    requires WorldInv(s) && Hopeless(s, late, prompt) && Step(s, e).Some? && GroupOf(e.op) == Switching && !Attends(e)
    ensures HopelessMoves(s, e, Step(s, e).value, late, prompt)
  {
    assert !Hopeful(s, e.t, late, prompt);
    assert forall t: Task :: Storing(s, t) ==> HoldsRead(s.tasks[t]);
    assert e.op.SwitchRenew? ==> Renewing(s, e.t);
  }

  lemma ClearHopeless(s: World, e: Event, late: set<Task>, prompt: bool)
    requires WorldInv(s) && Hopeless(s, late, prompt) && Step(s, e).Some? && GroupOf(e.op) == Clearing
    ensures HopelessMoves(s, e, Step(s, e).value, late, prompt)
  {
    assert !Hopeful(s, e.t, late, prompt);
  }

  lemma OtherHopeless(s: World, e: Event, late: set<Task>, prompt: bool)
    requires WorldInv(s) && Hopeless(s, late, prompt) && Step(s, e).Some?
    requires GroupOf(e.op) in {Guarding, Settlement, Retrying}
    ensures HopelessMoves(s, e, Step(s, e).value, late, prompt)
  {
    assert !Hopeful(s, e.t, late, prompt);
  }

  // The guard of an operation keeps its cancelled token.
  lemma StaysCancelled(s: World, e: Event, u: Task)
    requires WorldInv(s) && Step(s, e).Some? && u < |s.tasks| && s.tasks[u].Trying? && !Live(s)
    ensures !Live(Step(s, e).value)
  {
    TokensStep(s, e);
    assert HoldsRead(s.tasks[u]);
    if Step(s, e).value.b.token != s.b.token {
      ReplacedOnlyWhenIdleInv(s, e, Step(s, e).value);
    }
  }

  lemma OthersStayHopeless(s: World, e: Event, s': World, late: set<Task>, u: Task, prompt: bool)
    requires WorldInv(s) && Hopeless(s, late, prompt) && Step(s, e) == Some(s')
    requires HopelessMoves(s, e, s', late, prompt) && u != e.t
    ensures !Hopeful(s', u, Late(s, e, late), prompt)
    ensures u in Late(s, e, late) ==> u < |s'.tasks| && s'.tasks[u].Trying? && s'.tasks[u].phase != Locking && !Live(s')
  {
    assert !Hopeful(s, u, late, prompt);
    assert forall r :: Clears(s', r) ==> Clears(s, r);
    if u < |s.tasks| && s.tasks[u].Trying? {
      assert HoldsRead(s.tasks[u]) && u in s.readers && s.writer.None?;
      if !Live(s) {
        StaysCancelled(s, e, u);
      }
    }
  }

  lemma HopelessStep(s: World, e: Event, late: set<Task>, prompt: bool)
    requires WorldInv(s) && Hopeless(s, late, prompt) && Step(s, e).Some? && !Attends(e)
    requires prompt ==> !((e.op.DialEnd? || e.op.StreamEnd?) && e.t in late)
    ensures Hopeless(Step(s, e).value, Late(s, e, late), prompt)
  {
    var s' := Step(s, e).value;
    assert GroupOf(e.op) != Adding;
    if GroupOf(e.op) in {Connecting, Landing, Ending} {
      ConnectHopeless(s, e, late, prompt);
    } else if GroupOf(e.op) == Switching {
      SwitchHopeless(s, e, late, prompt);
    } else if GroupOf(e.op) == Clearing {
      ClearHopeless(s, e, late, prompt);
    } else {
      OtherHopeless(s, e, late, prompt);
    }
    forall u: Task
      ensures !Hopeful(s', u, Late(s, e, late), prompt)
      ensures u in Late(s, e, late) ==>
        u < |s'.tasks| && s'.tasks[u].Trying? && s'.tasks[u].phase != Locking && !Live(s')
    {
      if u != e.t {
        OthersStayHopeless(s, e, s', late, u, prompt);
      }
    }
    RenewingStaysStuck(s, e, s', late, prompt);
  }

  lemma RenewingStaysStuck(s: World, e: Event, s': World, late: set<Task>, prompt: bool)
    requires Hopeless(s, late, prompt) && HopelessMoves(s, e, s', late, prompt)
    ensures (exists t :: Renewing(s', t)) ==> exists t :: Storing(s', t)
  {
    if t :| Renewing(s', t) {
      assert Renewing(s, t);
      var u :| Storing(s, u);
      assert Storing(s', u);
    }
  }

  lemma {:induction false} HopelessStays(s: World, es: seq<Event>, late: set<Task>, prompt: bool)
    requires WorldInv(s) && Hopeless(s, late, prompt) && Run(s, es).Some? && Unattended(es)
    requires prompt ==> Prompt(s, es, late)
    ensures Down(Run(s, es).value)
    decreases |es|
  {
    if es != [] {
      WorldInvStep(s, es[0]);
      HopelessStep(s, es[0], late, prompt);
      HopelessStays(Step(s, es[0]).value, es[1..], Late(s, es[0], late), prompt);
    }
  }

  // ----- With hope it can come back -----

  // An unattended run of await-level steps, no wait in it answered within one
  // poll, that ends with the backend up.
  ghost predicate Revives(s: World, es: seq<Event>, prompt: bool) {
    Unattended(es) && AwaitLevel(es) && (prompt ==> NeverLingers(s, es)) &&
    Run(s, es).Some? && Run(s, es).value.b.status == Normal
  }

  lemma ReviveAfter(s: World, e: Event, es: seq<Event>, prompt: bool) returns (all: seq<Event>)
    requires !Attends(e) && !e.fine && (prompt ==> !Lingers(s, e)) && Step(s, e).Some?
    requires Revives(Step(s, e).value, es, prompt)
    ensures Revives(s, all, prompt)
  {
    RunCons(s, e, es);
    all := [e] + es;
  }

  lemma ReviveNow(s: World, e: Event, prompt: bool) returns (es: seq<Event>)
    requires !Attends(e) && !e.fine && (prompt ==> !Lingers(s, e)) && Step(s, e).Some?
    requires Step(s, e).value.b.status == Normal
    ensures Revives(s, es, prompt)
  {
    es := ReviveAfter(s, e, [], prompt);
  }

  ghost predicate Base(s: World, prompt: bool) {
    WorldInv(s) && Down(s) && (prompt ==> Live(s))
  }

  // A retry that waits for its stream.
  lemma StreamRevives(s: World, t: Task, prompt: bool) returns (es: seq<Event>)
    requires t < |s.tasks| && s.tasks[t].Trying? && s.tasks[t].kind.Retry? && s.tasks[t].phase == Streaming
    ensures Revives(s, es, prompt)
  {
    es := ReviveNow(s, Event(StreamEnd(true), t, false), prompt);
  }

  // Whoever dials can connect, which frees the mutex.
  lemma DialConnects(s: World, u: Task, prompt: bool) returns (e: Event, s': World)
    requires Base(s, prompt) && u < |s.tasks| && Lifecycle.Dials(s.tasks[u])
    ensures !Attends(e) && !e.fine && (prompt ==> !Lingers(s, e)) && Step(s, e) == Some(s') && Base(s', prompt)
    ensures s'.tasks == s.tasks[u := s.tasks[u].(phase := Streaming)] && s'.b.Current() == Connected
    ensures s'.MutexFree(s'.b.client)
    ensures s'.b.retrying == s.b.retrying
  {
    assert UsesCurrent(s, s.tasks[u]);
    e := Event(DialEnd(true, false), u, false);
    s' := Step(s, e).value;
    WorldInvStep(s, e);
  }

  // Whoever dials for a peer connects, or is dropped under a cancelled token;
  // either frees the mutex.
  lemma MutexFreed(s: World, u: Task, prompt: bool) returns (e: Event, s': World)
    requires Base(s, prompt) && u < |s.tasks| && Lifecycle.Dials(s.tasks[u]) && s.tasks[u].kind.Attempt?
    ensures !Attends(e) && !e.fine && (prompt ==> !Lingers(s, e)) && Step(s, e) == Some(s') && Base(s', prompt)
    ensures s'.b.Current() != Poisoned && s'.MutexFree(s'.b.client)
    ensures forall v: Task :: v < |s.tasks| && v != u ==> v < |s'.tasks| && s'.tasks[v] == s.tasks[v]
  {
    if Live(s) {
      e, s' := DialConnects(s, u, prompt);
    } else {
      assert UsesCurrent(s, s.tasks[u]);
      e := Event(Abort, u, false);
      s' := Step(s, e).value;
      WorldInvStep(s, e);
    }
  }

  lemma DialRevives(s: World, t: Task, prompt: bool) returns (es: seq<Event>)
    requires Base(s, prompt) && t < |s.tasks| && Lifecycle.Dials(s.tasks[t]) && s.tasks[t].kind.Retry?
    ensures Revives(s, es, prompt)
  {
    var e, s' := DialConnects(s, t, prompt);
    es := StreamRevives(s', t, prompt);
    es := ReviveAfter(s, e, es, prompt);
  }

  lemma FreeLockRevives(s: World, t: Task, prompt: bool) returns (es: seq<Event>)
    requires Base(s, prompt) && t < |s.tasks| && s.tasks[t].Trying? && s.tasks[t].kind.Retry?
    requires s.tasks[t].phase == Locking
    requires s.MutexFree(s.b.client) && s.b.Current() != Poisoned
    ensures Revives(s, es, prompt)
  {
    assert UsesCurrent(s, s.tasks[t]);
    var e := Event(LockClient(false), t, false);
    var s' := Step(s, e).value;
    WorldInvStep(s, e);
    if s.b.Current() == Connected {
      es := StreamRevives(s', t, prompt);
    } else {
      es := DialRevives(s', t, prompt);
    }
    es := ReviveAfter(s, e, es, prompt);
  }

  lemma LockRevives(s: World, t: Task, prompt: bool) returns (es: seq<Event>)
    requires Base(s, prompt) && t < |s.tasks| && s.tasks[t].Trying? && s.tasks[t].kind.Retry?
    requires s.tasks[t].phase == Locking
    requires s.MutexFree(s.b.client) ==> s.b.Current() != Poisoned
    ensures Revives(s, es, prompt)
  {
    if s.MutexFree(s.b.client) {
      es := FreeLockRevives(s, t, prompt);
    } else if s.tasks[s.holders[s.b.client]].kind.Retry? {
      es := DialRevives(s, s.holders[s.b.client], prompt);
    } else {
      var e, s' := MutexFreed(s, s.holders[s.b.client], prompt);
      es := FreeLockRevives(s', t, prompt);
      es := ReviveAfter(s, e, es, prompt);
    }
  }

  lemma FreeResetRevives(s: World, t: Task, prompt: bool) returns (es: seq<Event>)
    requires Base(s, prompt) && t < |s.tasks| && s.tasks[t].Resetting? && s.MutexFree(s.b.client)
    ensures Revives(s, es, prompt)
  {
    var e := Event(RetryReset, t, false);
    WorldInvStep(s, e);
    es := FreeLockRevives(Step(s, e).value, t, prompt);
    es := ReviveAfter(s, e, es, prompt);
  }

  lemma ResetRevives(s: World, t: Task, prompt: bool) returns (es: seq<Event>)
    requires Base(s, prompt) && t < |s.tasks| && s.tasks[t].Resetting?
    ensures Revives(s, es, prompt)
  {
    if s.MutexFree(s.b.client) {
      es := FreeResetRevives(s, t, prompt);
    } else if s.tasks[s.holders[s.b.client]].kind.Retry? {
      es := DialRevives(s, s.holders[s.b.client], prompt);
    } else {
      var e, s' := MutexFreed(s, s.holders[s.b.client], prompt);
      es := FreeResetRevives(s', t, prompt);
      es := ReviveAfter(s, e, es, prompt);
    }
  }

  predicate Checks(pc: Pc) {
    pc.RetryWaiting? || pc.RetryChecking?
  }

  // While nobody writes and no retry runs, a task that checks retries.
  lemma FreeCheckRevives(s: World, t: Task, prompt: bool) returns (es: seq<Event>)
    requires Base(s, prompt) && t < |s.tasks| && Checks(s.tasks[t]) && s.CanRead() && !s.b.retrying
    ensures Revives(s, es, prompt)
  {
    var e := Event(if s.tasks[t].RetryWaiting? then RetryCheck else RetryLoad, t, false);
    WorldInvStep(s, e);
    es := ResetRevives(Step(s, e).value, t, prompt);
    es := ReviveAfter(s, e, es, prompt);
  }

  // A retry that finds the client poisoned clears the flag for another.
  lemma PoisonedLockFails(s: World, u: Task, prompt: bool) returns (e: Event, s': World)
    requires Base(s, prompt) && u < |s.tasks| && s.tasks[u].Trying? && s.tasks[u].kind.Retry?
    requires s.tasks[u].phase == Locking
    requires s.MutexFree(s.b.client) && s.b.Current() == Poisoned
    ensures !Attends(e) && !e.fine && (prompt ==> !Lingers(s, e)) && Step(s, e) == Some(s') && Base(s', prompt)
    ensures !s'.b.retrying && s'.CanRead()
    ensures var left := s.tasks[u].kind.left;
      s'.tasks == s.tasks[u := if left <= 1 then Done else RetryWaiting(left - 1)]
  {
    assert UsesCurrent(s, s.tasks[u]) && HoldsRead(s.tasks[u]);
    e := Event(LockClient(false), u, false);
    s' := Step(s, e).value;
    WorldInvStep(s, e);
  }

  // A retry under way restores the backend, or lets another.
  lemma FlagRevives(s: World, t: Task, u: Task, prompt: bool) returns (es: seq<Event>)
    requires Base(s, prompt) && t < |s.tasks| && Checks(s.tasks[t]) && s.CanRead()
    requires u < |s.tasks| && InRetry(s.tasks[u])
    ensures Revives(s, es, prompt)
  {
    var pc := s.tasks[u];
    if pc.Resetting? {
      es := ResetRevives(s, u, prompt);
    } else if pc.Settling? {
      var e := Event(Settle, u, false);
      if pc.ok {
        es := ReviveNow(s, e, prompt);
      } else {
        WorldInvStep(s, e);
        es := FreeCheckRevives(Step(s, e).value, t, prompt);
        es := ReviveAfter(s, e, es, prompt);
      }
    } else if pc.Unflagging? {
      var e := Event(RetryUnflag, u, false);
      WorldInvStep(s, e);
      es := FreeCheckRevives(Step(s, e).value, t, prompt);
      es := ReviveAfter(s, e, es, prompt);
    } else if pc.phase == Streaming {
      es := StreamRevives(s, u, prompt);
    } else if pc.phase == Dialing {
      es := DialRevives(s, u, prompt);
    } else if s.MutexFree(s.b.client) && s.b.Current() == Poisoned {
      var e, s' := PoisonedLockFails(s, u, prompt);
      es := FreeCheckRevives(s', t, prompt);
      es := ReviveAfter(s, e, es, prompt);
    } else {
      es := LockRevives(s, u, prompt);
    }
  }

  // The write guard is given back.
  lemma WriterLeaves(s: World, prompt: bool) returns (e: Event, s': World)
    requires Base(s, prompt) && s.writer.Some?
    ensures !Attends(e) && !e.fine && (prompt ==> !Lingers(s, e)) && Step(s, e) == Some(s') && Base(s', prompt)
    ensures s'.CanRead()
    ensures s'.tasks == s.tasks[s.writer.value := Done]
  {
    e := Event(ProtocolClear, s.writer.value, false);
    s' := Step(s, e).value;
    WorldInvStep(s, e);
  }

  lemma WaitingRevives(s: World, t: Task, prompt: bool) returns (es: seq<Event>)
    requires Base(s, prompt) && t < |s.tasks| && Checks(s.tasks[t]) && s.CanRead()
    ensures Revives(s, es, prompt)
  {
    if s.b.retrying {
      var u: Task :| u < |s.tasks| && InRetry(s.tasks[u]);
      es := FlagRevives(s, t, u, prompt);
    } else {
      es := FreeCheckRevives(s, t, prompt);
    }
  }

  lemma SpawnedRevives(s: World, t: Task, prompt: bool) returns (es: seq<Event>)
    requires Base(s, prompt) && t < |s.tasks| && s.tasks[t].RetrySpawned? && s.CanRead()
    ensures Revives(s, es, prompt)
  {
    var e := Event(RetryStart, t, false);
    WorldInvStep(s, e);
    es := WaitingRevives(Step(s, e).value, t, prompt);
    es := ReviveAfter(s, e, es, prompt);
  }

  // A connection attempt that fails spawns a retry.
  lemma FailureRevives(s: World, t: Task, e: Event, prompt: bool) returns (es: seq<Event>)
    requires Base(s, prompt) && t < |s.tasks| && HoldsRead(s.tasks[t]) && e.t == t && !e.fine && !Attends(e)
    requires prompt ==> !Lingers(s, e)
    requires Step(s, e).Some? && Step(s, e).value.tasks == s.tasks[t := Done] + [RetrySpawned]
    requires Down(Step(s, e).value) && (prompt ==> Live(Step(s, e).value))
    ensures Revives(s, es, prompt)
  {
    WorldInvStep(s, e);
    var s' := Step(s, e).value;
    assert t in s.readers && s.writer.None?;
    StepMoves(s, e);
    es := SpawnedRevives(s', |s.tasks|, prompt);
    es := ReviveAfter(s, e, es, prompt);
  }

  lemma WaitingAttemptRevives(s: World, t: Task, prompt: bool) returns (es: seq<Event>)
    requires Base(s, prompt) && t < |s.tasks| && s.tasks[t].Trying? && s.tasks[t].kind.Attempt?
    requires s.tasks[t].phase != Locking
    ensures Revives(s, es, prompt)
  {
    assert UsesCurrent(s, s.tasks[t]);
    es := FailureRevives(s, t,
      Event(if s.tasks[t].phase == Dialing then DialEnd(false, false) else StreamEnd(false), t, false), prompt);
  }

  lemma FreeAttemptRevives(s: World, t: Task, prompt: bool) returns (es: seq<Event>)
    requires Base(s, prompt) && t < |s.tasks| && s.tasks[t].Trying? && s.tasks[t].kind.Attempt?
    requires s.tasks[t].phase == Locking
    requires s.MutexFree(s.b.client)
    ensures Revives(s, es, prompt)
  {
    assert UsesCurrent(s, s.tasks[t]);
    var e := Event(LockClient(false), t, false);
    if s.b.Current() == Poisoned {
      es := FailureRevives(s, t, e, prompt);
    } else {
      WorldInvStep(s, e);
      es := WaitingAttemptRevives(Step(s, e).value, t, prompt);
      es := ReviveAfter(s, e, es, prompt);
    }
  }

  lemma AttemptRevives(s: World, t: Task, prompt: bool) returns (es: seq<Event>)
    requires Base(s, prompt) && t < |s.tasks| && s.tasks[t].Trying? && s.tasks[t].kind.Attempt?
    ensures Revives(s, es, prompt)
  {
    if s.tasks[t].phase != Locking {
      es := WaitingAttemptRevives(s, t, prompt);
    } else if s.MutexFree(s.b.client) {
      es := FreeAttemptRevives(s, t, prompt);
    } else if s.tasks[s.holders[s.b.client]].kind.Retry? {
      es := DialRevives(s, s.holders[s.b.client], prompt);
    } else {
      var e, s' := MutexFreed(s, s.holders[s.b.client], prompt);
      es := FreeAttemptRevives(s', t, prompt);
      es := ReviveAfter(s, e, es, prompt);
    }
  }

  // Tasks that need no guard of their own yet.
  lemma NewcomerRevives(s: World, t: Task, prompt: bool) returns (es: seq<Event>)
    requires Base(s, prompt) && t < |s.tasks|
    requires s.tasks[t].Picked? || s.tasks[t].RetrySpawned? || s.tasks[t].RetryWaiting?
    requires s.CanRead()
    ensures Revives(s, es, prompt)
  {
    if s.tasks[t].RetrySpawned? {
      es := SpawnedRevives(s, t, prompt);
    } else if s.tasks[t].RetryWaiting? {
      es := WaitingRevives(s, t, prompt);
    } else {
      var e := Event(BeginAttempt, t, false);
      WorldInvStep(s, e);
      es := AttemptRevives(Step(s, e).value, t, prompt);
      es := ReviveAfter(s, e, es, prompt);
    }
  }

  // A retry that is not lost.
  lemma RetryRevives(s: World, t: Task, prompt: bool) returns (es: seq<Event>)
    requires Base(s, prompt) && Hopeful(s, t, {}, prompt) && s.tasks[t].Trying? && s.tasks[t].kind.Retry?
    ensures Revives(s, es, prompt)
  {
    if s.tasks[t].phase == Streaming {
      es := StreamRevives(s, t, prompt);
    } else if s.tasks[t].phase == Dialing {
      es := DialRevives(s, t, prompt);
    } else if !s.MutexFree(s.b.client) || s.b.Current() != Poisoned {
      es := LockRevives(s, t, prompt);
    } else if s.tasks[t].kind.left > 1 {
      var e, s' := PoisonedLockFails(s, t, prompt);
      es := FreeCheckRevives(s', t, prompt);
      es := ReviveAfter(s, e, es, prompt);
    } else {
      var r :| Clears(s, r);
      es := ClearedRevives(s, t, r);
    }
  }

  // A reset that is under way clears the client before the retry looks at it.
  lemma ClearedRevives(s: World, t: Task, r: Task) returns (es: seq<Event>)
    requires Base(s, false) && t < |s.tasks| && s.tasks[t].Trying? && s.tasks[t].kind.Retry?
    requires s.tasks[t].phase == Locking && s.MutexFree(s.b.client) && Clears(s, r)
    ensures Revives(s, es, false)
    decreases s.tasks[r].ResetCancelling?
  {
    assert HoldsRead(s.tasks[t]);
    var e := Event(if s.tasks[r].ResetCancelling? then ResetCancel else ResetClear, r, false);
    var s' := Step(s, e).value;
    WorldInvStep(s, e);
    if s.tasks[r].ResetCancelling? {
      es := ClearedRevives(s', t, r);
    } else {
      es := FreeLockRevives(s', t, false);
    }
    es := ReviveAfter(s, e, es, false);
  }

  lemma SettlingRevives(s: World, t: Task, prompt: bool) returns (es: seq<Event>)
    requires Base(s, prompt) && Hopeful(s, t, {}, prompt) && s.tasks[t].Settling?
    ensures Revives(s, es, prompt)
  {
    var e := Event(Settle, t, false);
    if s.tasks[t].kind.Attempt? {
      es := FailureRevives(s, t, e, prompt);
    } else if s.tasks[t].ok {
      es := ReviveNow(s, e, prompt);
    } else {
      WorldInvStep(s, e);
      assert HoldsRead(s.tasks[t]);
      es := FreeCheckRevives(Step(s, e).value, t, prompt);
      es := ReviveAfter(s, e, es, prompt);
    }
  }

  lemma HopefulRevives(s: World, t: Task, prompt: bool) returns (es: seq<Event>)
    requires Base(s, prompt) && Hopeful(s, t, {}, prompt)
    ensures Revives(s, es, prompt)
  {
    match s.tasks[t] {
      case Trying(kind, _, _, _) =>
        if kind.Attempt? { es := AttemptRevives(s, t, prompt); } else { es := RetryRevives(s, t, prompt); }
      case Settling(_, _) => es := SettlingRevives(s, t, prompt);
      case Resetting(_) => es := ResetRevives(s, t, prompt);
      case Unflagging(_, _) =>
        var e := Event(RetryUnflag, t, false);
        WorldInvStep(s, e);
        assert HoldsRead(s.tasks[t]);
        es := FreeCheckRevives(Step(s, e).value, t, prompt);
        es := ReviveAfter(s, e, es, prompt);
      case RetryChecking(_) =>
        assert HoldsRead(s.tasks[t]);
        es := WaitingRevives(s, t, prompt);
      case RetryLoaded(_) =>
        var e := Event(RetryStore, t, false);
        WorldInvStep(s, e);
        es := ResetRevives(Step(s, e).value, t, prompt);
        es := ReviveAfter(s, e, es, prompt);
      case _ =>
        if s.writer.Some? {
          var e, s' := WriterLeaves(s, prompt);
          es := NewcomerRevives(s', t, prompt);
          es := ReviveAfter(s, e, es, prompt);
        } else {
          es := NewcomerRevives(s, t, prompt);
        }
    }
  }

  lemma DialerHasHope(s: World, prompt: bool) returns (u: Task)
    requires Base(s, prompt) && !s.MutexFree(s.b.client)
    ensures Hopeful(s, u, {}, prompt)
  {
    u := s.holders[s.b.client];
    assert Lifecycle.Dials(s.tasks[u]);
  }

  lemma LeaverFrees(s: World, e: Event, s': World)
    requires WorldInv(s) && e.t in s.readers && GroupOf(e.op) != Adding && Step(s, e) == Some(s')
    requires e.t < |s'.tasks| && !HoldsRead(s'.tasks[e.t]) && !HoldsWrite(s'.tasks[e.t])
    ensures |s'.readers| < |s.readers| && s'.writer.None?
  {
    StepMoves(s, e);
    assert HoldsRead(s.tasks[e.t]) && !HoldsWrite(s.tasks[e.t]);
    assert s'.readers == s.readers - {e.t} && |s.readers - {e.t}| == |s.readers| - 1;
  }

  // A reader without hope that does not store a status gives its guard back.
  lemma ReaderLeaves(s: World, r: Task, prompt: bool) returns (e: Event, s': World)
    requires Base(s, prompt) && r in s.readers && (forall u :: !Hopeful(s, u, {}, prompt)) && !Storing(s, r)
    ensures !Attends(e) && !e.fine && (prompt ==> !Lingers(s, e)) && Step(s, e) == Some(s') && Base(s', prompt)
    ensures |s'.readers| < |s.readers| && s'.writer.None? && r < |s.tasks| && |s'.tasks| == |s.tasks|
    ensures forall u: Task :: u < |s.tasks| && u != r ==> s'.tasks[u] == s.tasks[u]
    ensures !Storing(s', r)
  {
    if !s.MutexFree(s.b.client) {
      var _ := DialerHasHope(s, prompt);
    }
    e, s' := LeavingStep(s, r, prompt);
    WorldInvStep(s, e);
    LeaverFrees(s, e, s');
  }

  lemma LeavingStep(s: World, r: Task, prompt: bool) returns (e: Event, s': World)
    requires Base(s, prompt) && r in s.readers && !Hopeful(s, r, {}, prompt) && !Storing(s, r)
    requires s.MutexFree(s.b.client)
    ensures !Attends(e) && !e.fine && (prompt ==> !Lingers(s, e)) && Step(s, e) == Some(s') && e.t == r
    ensures GroupOf(e.op) != Adding
    ensures r < |s.tasks| && s'.tasks == s.tasks[r := s'.tasks[r]] && Down(s') && (prompt ==> Live(s'))
    ensures !HoldsRead(s'.tasks[r]) && !HoldsWrite(s'.tasks[r])
  {
    var pc := s.tasks[r];
    assert UsesCurrent(s, pc);
    e := if pc.Transferring? then Event(EndTransfer(false), r, false)
         else if pc.Settling? then Event(Settle, r, false)
         else if pc.Unflagging? then Event(RetryUnflag, r, false)
         else if pc.ResetClearing? then Event(ResetClear, r, false)
         else Event(LockClient(false), r, false);
    s' := Step(s, e).value;
  }

  lemma RenewRevives(s: World, t: Task, prompt: bool) returns (es: seq<Event>)
    requires Base(s, prompt) && Renewing(s, t) && s.CanWrite()
    ensures Revives(s, es, prompt)
  {
    var e := Event(SwitchRenew, t, false);
    WorldInvStep(s, e);
    es := SpawnedRevives(Step(s, e).value, |s.tasks|, prompt);
    es := ReviveAfter(s, e, es, prompt);
  }

  // Without its last readers, the switch renews.
  lemma {:induction false} ReadersLeave(s: World, t: Task, prompt: bool) returns (es: seq<Event>)
    requires Base(s, prompt) && Renewing(s, t) && s.writer.None? && forall u :: !Storing(s, u)
    ensures Revives(s, es, prompt)
    decreases |s.readers|
  {
    if u :| Hopeful(s, u, {}, prompt) {
      es := HopefulRevives(s, u, prompt);
    } else if s.readers == {} {
      es := RenewRevives(s, t, prompt);
    } else {
      var r :| r in s.readers;
      assert HoldsRead(s.tasks[r]);
      var e, s' := ReaderLeaves(s, r, prompt);
      NoneStores(s, s', r);
      es := ReadersLeave(s', t, prompt);
      es := ReviveAfter(s, e, es, prompt);
    }
  }

  lemma NoneStores(s: World, s': World, r: Task)
    requires |s'.tasks| == |s.tasks| && !Storing(s', r) && forall u :: !Storing(s, u)
    requires forall u: Task :: u < |s.tasks| && u != r ==> s'.tasks[u] == s.tasks[u]
    ensures forall u :: !Storing(s', u)
  {
    forall u: Task
      ensures !Storing(s', u)
    {
      assert !Storing(s, u);
    }
  }

  lemma RenewingRevives(s: World, t: Task, prompt: bool) returns (es: seq<Event>)
    requires Base(s, prompt) && Renewing(s, t) && forall u :: !Storing(s, u)
    ensures Revives(s, es, prompt)
  {
    if s.writer.Some? {
      var e, s' := WriterLeaves(s, prompt);
      NoneStores(s, s', s.writer.value);
      es := ReadersLeave(s', t, prompt);
      es := ReviveAfter(s, e, es, prompt);
    } else {
      es := ReadersLeave(s, t, prompt);
    }
  }

  lemma HopeRevives(s: World, prompt: bool) returns (es: seq<Event>)
    requires Base(s, prompt) && HasHope(s, {}, prompt)
    ensures Revives(s, es, prompt)
  {
    if t :| Hopeful(s, t, {}, prompt) {
      es := HopefulRevives(s, t, prompt);
    } else {
      var t :| Renewing(s, t);
      es := RenewingRevives(s, t, prompt);
    }
  }
}
