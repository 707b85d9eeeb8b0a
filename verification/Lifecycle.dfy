// The life of one backend as a step machine (client/src/proxy.rs,
// client/src/backends.rs, client/src/metric.rs).
//
// Every activity is a task with a program counter. A step is the code that a
// task runs between two awaits. An event marked `fine` is preempted by another
// thread: after each load of a shared field that it decides on, after it has
// learned the outcome of its connection attempt, and, in a retry, after it has
// stored the status and before it clears the flag. What is left of its code is
// then a step of its own, which may be preempted too.
module Lifecycle {
  import opened Wrappers
  import opened Connector
  import opened Backends

  type Task = nat

  datatype Kind = Attempt | Retry(left: nat)
  datatype Phase = Locking | Dialing | Streaming

  datatype Pc =
    | Done
      // handle_connection
    | Picked
    | Opened
    | Transferring(token: nat)
      // try_connect, for an attempt or a retry
    | Trying(kind: Kind, phase: Phase, token: nat, client: nat)
    | Settling(kind: Kind, ok: bool)
      // retry_forever and retry_connect
    | RetrySpawned
    | RetryWaiting(left: nat)
    | RetryChecking(left: nat)
    | RetryLoaded(left: nat)
    | Resetting(left: nat)
    | Unflagging(left: nat, ok: bool)
      // administrator requests
    | SwitchCancelling | SwitchReading | SwitchStoring(reopens: bool) | SwitchRenewing
    | ResetCancelling | ResetClearing | ResetRenewing
    | ProtocolCancelling | ProtocolWriting | ProtocolClearing

  predicate HoldsRead(pc: Pc) {
    pc.Trying? || pc.Settling? || pc.RetryChecking? || pc.RetryLoaded? || pc.Resetting? || pc.Unflagging? ||
    pc.Transferring? || pc.SwitchStoring? || pc.ResetClearing?
  }

  predicate HoldsWrite(pc: Pc) {
    pc.ProtocolClearing?
  }

  datatype World = World(
    b: Shared,
    holders: map<nat, Task>,   // who holds the mutex of each client
    readers: set<Task>,        // who holds a read guard on the backend
    writer: Option<Task>,      // who holds the write guard
    tasks: seq<Pc>,
    maxRetries: nat)
  {
    predicate CanRead() {
      writer.None?
    }

    predicate CanWrite() {
      writer.None? && readers == {}
    }

    predicate MutexFree(c: nat) {
      c !in holders
    }

    function Spawn(pc: Pc): World {
      this.(tasks := tasks + [pc])
    }

    function At(t: Task, pc: Pc): World
      requires t < |tasks|
    {
      this.(tasks := tasks[t := pc])
    }

    function Guard(t: Task): World {
      this.(readers := readers + {t})
    }

    function Unguard(t: Task): World {
      this.(readers := readers - {t})
    }

    function Lock(c: nat, t: Task): World {
      this.(holders := holders[c := t])
    }

    function Unlock(c: nat): World {
      this.(holders := holders - {c})
    }

    // How many times retry_forever goes round.
    function Limit(): nat {
      if maxRetries == 0 then 0xFFFF_FFFF else maxRetries
    }
  }

  function NewWorld(status: Status, protocol: Protocol, maxRetries: nat): World {
    World(NewShared(status, protocol), map[], {}, None, [], maxRetries)
  }

  datatype Op =
      // new activities
    | Pick | AskSwitch | AskReset | AskProtocol
      // handle_connection
    | BeginAttempt | BeginTransfer | EndTransfer(wasCancelled: bool)
      // try_connect
    | LockClient(finished: bool) | DialEnd(ok: bool, finished: bool) | StreamEnd(ok: bool)
    | Abort | Settle
      // retry_forever
    | RetryStart | RetryCheck | RetryLoad | RetryStore | RetryReset | RetryUnflag
      // administrator requests
    | SwitchCancel | SwitchToggle | SwitchStore | SwitchRenew
    | ResetCancel | ResetClear | ResetRenew
    | ProtocolCancel | ProtocolWrite(built: bool) | ProtocolClear

  datatype Event = Event(op: Op, t: Task, fine: bool)

  // try_connect has returned: act on it, unless preempted first.
  function Finish(s: World, t: Task, kind: Kind, ok: bool, fine: bool): World
    requires t < |s.tasks|
  {
    if fine then s.At(t, Settling(kind, ok)) else Settled(s, t, kind, ok)
  }

  function Settled(s: World, t: Task, kind: Kind, ok: bool): World
    requires t < |s.tasks|
  {
    match kind
    case Attempt =>
      if ok then s.Unguard(t).At(t, Opened)
      else s.(b := s.b.WithStatus(Closed)).Unguard(t).At(t, Done).Spawn(RetrySpawned)
    case Retry(left) => s.(b := s.b.RetryEnd(ok)).Unguard(t).At(t, AfterTry(left, ok))
  }

  // Where a retry goes after a try.
  function AfterTry(left: nat, ok: bool): Pc {
    if ok || left <= 1 then Done else RetryWaiting(left - 1)
  }

  // A retry has stored the status, and is preempted before it clears the flag.
  function Stored(s: World, t: Task, left: nat, ok: bool): World
    requires t < |s.tasks|
  {
    s.(b := s.b.WithStatus(if ok then Normal else Closed)).At(t, Unflagging(left, ok))
  }

  function Unflagged(s: World, t: Task, left: nat, ok: bool): World
    requires t < |s.tasks|
  {
    s.(b := s.b.(retrying := false)).Unguard(t).At(t, AfterTry(left, ok))
  }

  // The client's mutex is free: one pass of the loop in new_stream_fut.
  function Locked(s: World, t: Task, pc: Pc, finished: bool, fine: bool): World
    requires t < |s.tasks| && pc.Trying?
  {
    match s.b.ClientOf(pc.client)
    case Poisoned => Finish(s, t, pc.kind, false, fine)
    case NotConnected => s.Lock(pc.client, t).At(t, pc.(phase := Dialing))
    case Connected =>
      if finished then s.(b := s.b.Saw(pc.client, SawFinished)).Lock(pc.client, t).At(t, pc.(phase := Dialing))
      else s.At(t, pc.(phase := Streaming))
  }

  function Dialled(s: World, t: Task, pc: Pc, ok: bool, finished: bool, fine: bool): World
    requires t < |s.tasks| && pc.Trying?
  {
    var s' := s.(b := s.b.Saw(pc.client, Dialed(ok)));
    if !ok then Finish(s'.Unlock(pc.client), t, pc.kind, false, fine)
    else if finished then s'.(b := s'.b.Saw(pc.client, SawFinished))
    else s'.Unlock(pc.client).At(t, pc.(phase := Streaming))
  }

  function Checked(s: World, t: Task, left: nat, fine: bool): World
    requires t < |s.tasks|
  {
    if fine && s.b.status in {Closed, Unknown} then s.Guard(t).At(t, RetryChecking(left))
    else if !fine && s.b.RetryBegins() then s.(b := s.b.(retrying := true)).Guard(t).At(t, Resetting(left))
    else s.At(t, Done)
  }

  // The retrying flag is loaded, by a task that holds its guard.
  function Loaded(s: World, t: Task, left: nat, fine: bool): World
    requires t < |s.tasks|
  {
    if s.b.retrying then s.Unguard(t).At(t, Done)
    else if fine then s.At(t, RetryLoaded(left))
    else s.(b := s.b.(retrying := true)).At(t, Resetting(left))
  }

  function Rebuilt(s: World, t: Task, built: bool): World
    requires t < |s.tasks|
  {
    var s' := s.(b := s.b.SwitchProtocol(built));
    if built then s'.(writer := Some(t)).At(t, ProtocolClearing) else s'.At(t, Done)
  }

  function Switched(s: World, t: Task, reopens: bool): World
    requires t < |s.tasks|
  {
    s.(b := s.b.Toggle(reopens)).At(t, if reopens then SwitchRenewing else Done)
  }

  // The world after an event, if the event is enabled.
  function Step(s: World, e: Event): Option<World> {
    var t := e.t;
    var pc := if t < |s.tasks| then s.tasks[t] else Done;
    match e.op
    case Pick =>
      if s.b.status == Normal then Some(s.Spawn(Picked)) else None
    case AskSwitch => Some(s.Spawn(SwitchCancelling))
    case AskReset => Some(s.Spawn(ResetCancelling))
    case AskProtocol => Some(s.Spawn(ProtocolCancelling))
    case BeginAttempt =>
      if pc.Picked? && s.CanRead()
      then Some(s.Guard(t).At(t, Trying(Attempt, Locking, s.b.token, s.b.client))) else None
    case BeginTransfer =>
      if pc.Opened? && s.CanRead() then Some(s.Guard(t).At(t, Transferring(s.b.token))) else None
    case EndTransfer(wasCancelled) =>
      if pc.Transferring? && (wasCancelled ==> pc.token in s.b.cancelled)
      then Some(s.Unguard(t).At(t, Done)) else None
    case LockClient(finished) =>
      if pc.Trying? && pc.phase == Locking && s.MutexFree(pc.client)
      then Some(Locked(s, t, pc, finished, e.fine)) else None
    case DialEnd(ok, finished) =>
      if pc.Trying? && pc.phase == Dialing then Some(Dialled(s, t, pc, ok, finished, e.fine)) else None
    case StreamEnd(ok) =>
      if pc.Trying? && pc.phase == Streaming then Some(Finish(s, t, pc.kind, ok, e.fine)) else None
    case Abort =>
      if pc.Trying? && pc.token in s.b.cancelled
      then Some(Finish(if pc.phase == Dialing then s.Unlock(pc.client) else s, t, pc.kind, false, e.fine)) else None
    case Settle =>
      if !pc.Settling? then None
      else if e.fine && pc.kind.Retry? then Some(Stored(s, t, pc.kind.left, pc.ok))
      else Some(Settled(s, t, pc.kind, pc.ok))
    case RetryStart =>
      if pc.RetrySpawned? && s.CanRead() then Some(s.At(t, RetryWaiting(s.Limit()))) else None
    case RetryCheck =>
      if pc.RetryWaiting? && s.CanRead() then Some(Checked(s, t, pc.left, e.fine)) else None
    case RetryLoad =>
      if pc.RetryChecking? then Some(Loaded(s, t, pc.left, e.fine)) else None
    case RetryStore =>
      if pc.RetryLoaded? then Some(s.(b := s.b.(retrying := true)).At(t, Resetting(pc.left))) else None
    case RetryReset =>
      if pc.Resetting? && s.MutexFree(s.b.client)
      then Some(s.(b := s.b.Saw(s.b.client, WasReset)).At(t, Trying(Retry(pc.left), Locking, s.b.token, s.b.client)))
      else None
    case RetryUnflag =>
      if pc.Unflagging? then Some(Unflagged(s, t, pc.left, pc.ok)) else None
    case SwitchCancel =>
      if pc.SwitchCancelling? && s.CanRead() then Some(s.(b := s.b.Cancel()).At(t, SwitchReading)) else None
    case SwitchToggle =>
      if pc.SwitchReading? && s.CanRead()
      then Some(if e.fine then s.Guard(t).At(t, SwitchStoring(s.b.status == ForceClosed))
        else Switched(s, t, s.b.status == ForceClosed))
      else None
    case SwitchStore =>
      if pc.SwitchStoring? then Some(Switched(s.Unguard(t), t, pc.reopens)) else None
    case SwitchRenew =>
      if pc.SwitchRenewing? && s.CanWrite()
      then Some(s.(b := s.b.Renew()).At(t, Done).Spawn(RetrySpawned)) else None
    case ResetCancel =>
      if pc.ResetCancelling? && s.CanRead()
      then Some(s.(b := s.b.Cancel()).Guard(t).At(t, ResetClearing)) else None
    case ResetClear =>
      if pc.ResetClearing? && s.MutexFree(s.b.client)
      then Some(s.(b := s.b.ResetClient()).Unguard(t).At(t, ResetRenewing)) else None
    case ResetRenew =>
      if pc.ResetRenewing? && s.CanWrite() then Some(s.(b := s.b.Renew()).At(t, Done)) else None
    case ProtocolCancel =>
      if pc.ProtocolCancelling? && s.CanRead()
      then Some(s.(b := s.b.Cancel()).At(t, ProtocolWriting)) else None
    case ProtocolWrite(built) =>
      if pc.ProtocolWriting? && s.CanWrite() then Some(Rebuilt(s, t, built)) else None
    case ProtocolClear =>
      if pc.ProtocolClearing? && s.MutexFree(s.b.client)
      then Some(s.(b := s.b.ResetClient(), writer := None).At(t, Done)) else None
  }

  // The world after a sequence of events, if each is enabled in its turn.
  function Run(s: World, es: seq<Event>): Option<World>
    decreases |es|
  {
    if es == [] then Some(s)
    else
      match Step(s, es[0])
      case None => None
      case Some(s') => Run(s', es[1..])
  }

  predicate AwaitLevel(es: seq<Event>) {
    forall i :: 0 <= i < |es| ==> !es[i].fine
  }

  // An operation under a cancelled token is dropped by the end of the poll that
  // finds it cancelled. An event that leaves it under way is within that poll.
  predicate Lingers(s: World, e: Event) {
    && (e.op.LockClient? || e.op.DialEnd?)
    && e.t < |s.tasks| && s.tasks[e.t].Trying? && s.tasks[e.t].token in s.b.cancelled
    && Step(s, e).Some? && e.t < |Step(s, e).value.tasks| && Step(s, e).value.tasks[e.t].Trying?
  }

  predicate NeverLingers(s: World, es: seq<Event>)
    decreases |es|
  {
    es == [] || (!Lingers(s, es[0]) && (Step(s, es[0]).Some? ==> NeverLingers(Step(s, es[0]).value, es[1..])))
  }

  // The tasks whose wait for the network began under a cancelled token.
  function Late(s: World, e: Event, late: set<Task>): set<Task> {
    if Lingers(s, e) then late + {e.t}
    else if GroupOf(e.op) in {Connecting, Landing, Ending} then late - {e.t}
    else late
  }

  // No wait that began under a cancelled token is answered: only an answer that
  // is there within the same poll could be, as for a dial with early data and
  // a stream that carries none (client/src/connector.rs:142-146, 214).
  predicate Prompt(s: World, es: seq<Event>, late: set<Task>)
    decreases |es|
  {
    es == [] ||
    (!((es[0].op.DialEnd? || es[0].op.StreamEnd?) && es[0].t in late) &&
     (Step(s, es[0]).Some? ==> Prompt(Step(s, es[0]).value, es[1..], Late(s, es[0], late))))
  }

  lemma {:induction false} NeverLingersIsPrompt(s: World, es: seq<Event>)
    requires NeverLingers(s, es)
    ensures Prompt(s, es, {})
    decreases |es|
  {
    if es != [] && Step(s, es[0]).Some? {
      assert Late(s, es[0], {}) == {};
      NeverLingersIsPrompt(Step(s, es[0]).value, es[1..]);
    }
  }

  ghost predicate Reachable(s: World) {
    exists status, protocol, maxRetries: nat, es :: Run(NewWorld(status, protocol, maxRetries), es) == Some(s)
  }

  lemma {:induction false} RunSplit(s: World, es: seq<Event>, es': seq<Event>)
    requires Run(s, es).Some?
    ensures Run(s, es + es') == Run(Run(s, es).value, es')
    decreases |es|
  {
    if es == [] {
      assert es + es' == es';
    } else {
      assert (es + es')[1..] == es[1..] + es';
      RunSplit(Step(s, es[0]).value, es[1..], es');
    }
  }

  // ----- What every step keeps, at any interleaving -----

  predicate Dials(pc: Pc) {
    pc.Trying? && pc.phase == Dialing
  }

  // An operation in flight uses the backend's current token and client.
  ghost predicate UsesCurrent(s: World, pc: Pc) {
    (pc.Trying? ==> pc.token == s.b.token && pc.client == s.b.client) &&
    (pc.Transferring? ==> pc.token == s.b.token)
  }

  ghost predicate CurrentMatches(s: World) {
    forall t: Task :: t < |s.tasks| ==> UsesCurrent(s, s.tasks[t])
  }

  ghost predicate ReadersMatch(s: World) {
    forall t: Task :: t in s.readers <==> t < |s.tasks| && HoldsRead(s.tasks[t])
  }

  ghost predicate WriterMatches(s: World) {
    && (forall t: Task :: t < |s.tasks| && HoldsWrite(s.tasks[t]) ==> s.writer == Some(t))
    && (s.writer.Some? ==> s.writer.value < |s.tasks| && HoldsWrite(s.tasks[s.writer.value]) && s.readers == {})
  }

  ghost predicate MutexMatches(s: World) {
    && (forall c :: c in s.holders ==>
      s.holders[c] < |s.tasks| && Dials(s.tasks[s.holders[c]]) && s.tasks[s.holders[c]].client == c)
    && (forall t: Task :: t < |s.tasks| && Dials(s.tasks[t]) ==>
          s.tasks[t].client in s.holders && s.holders[s.tasks[t].client] == t)
  }

  ghost predicate LockInv(s: World) {
    ReadersMatch(s) && WriterMatches(s) && MutexMatches(s) && CurrentMatches(s)
  }

  // A step moves one task, or adds one that holds nothing, and takes and gives
  // back exactly what the two program counters say.
  ghost predicate Moves(s: World, s': World, t: Task, from: Pc, to: Pc)
    requires t < |s.tasks|
  {
    && (s'.tasks == s.tasks[t := to] || s'.tasks == s.tasks[t := to] + [RetrySpawned])
    && s'.readers == (if HoldsRead(to) == HoldsRead(from) then s.readers
                      else if HoldsRead(to) then s.readers + {t} else s.readers - {t})
    && s'.writer == (if HoldsWrite(to) then Some(t) else if HoldsWrite(from) then None else s.writer)
    && s'.holders == (if Dials(to) == Dials(from) then s.holders
                      else if Dials(to) then s.holders[to.client := t] else s.holders - {from.client})
    && (HoldsRead(to) && !HoldsRead(from) ==> s.CanRead())
    && (HoldsWrite(to) ==> s.CanWrite())
    && (Dials(to) ==> if Dials(from) then from.client == to.client else to.client !in s.holders)
    && UsesCurrent(s', to)
    && (s.CanWrite() || (s'.b.token == s.b.token && s'.b.client == s.b.client))
  }

  ghost predicate Adds(s: World, s': World, pc: Pc) {
    s' == s.Spawn(pc) && !HoldsRead(pc) && !HoldsWrite(pc)
  }

  datatype Group = Adding | Guarding | Connecting | Landing | Ending | Settlement | Retrying | Switching | Clearing

  function GroupOf(op: Op): Group {
    match op
    case Pick => Adding
    case AskSwitch => Adding
    case AskReset => Adding
    case AskProtocol => Adding
    case BeginAttempt => Guarding
    case BeginTransfer => Guarding
    case EndTransfer(_) => Guarding
    case LockClient(_) => Connecting
    case DialEnd(_, _) => Landing
    case StreamEnd(_) => Ending
    case Abort => Ending
    case Settle => Settlement
    case RetryUnflag => Settlement
    case RetryStart => Retrying
    case RetryCheck => Retrying
    case RetryLoad => Retrying
    case RetryStore => Retrying
    case RetryReset => Retrying
    case SwitchCancel => Switching
    case SwitchToggle => Switching
    case SwitchStore => Switching
    case SwitchRenew => Switching
    case _ => Clearing
  }

  ghost predicate TaskMoves(s: World, e: Event)
    requires e.t < |s.tasks| && UsesCurrent(s, s.tasks[e.t]) && Step(s, e).Some?
  {
    var s' := Step(s, e).value;
    e.t < |s'.tasks| && Moves(s, s', e.t, s.tasks[e.t], s'.tasks[e.t])
  }

  lemma GuardingMoves(s: World, e: Event)
    requires e.t < |s.tasks| && UsesCurrent(s, s.tasks[e.t]) && Step(s, e).Some? && GroupOf(e.op) == Guarding
    ensures TaskMoves(s, e)
  {
  }

  lemma ConnectingMoves(s: World, e: Event)
    requires e.t < |s.tasks| && UsesCurrent(s, s.tasks[e.t]) && Step(s, e).Some? && GroupOf(e.op) == Connecting
    ensures TaskMoves(s, e)
  {
  }

  lemma LandingMoves(s: World, e: Event)
    requires e.t < |s.tasks| && UsesCurrent(s, s.tasks[e.t]) && Step(s, e).Some? && GroupOf(e.op) == Landing
    ensures TaskMoves(s, e)
  {
  }

  lemma EndingMoves(s: World, e: Event)
    requires e.t < |s.tasks| && UsesCurrent(s, s.tasks[e.t]) && Step(s, e).Some? && GroupOf(e.op) == Ending
    ensures TaskMoves(s, e)
  {
  }

  lemma SettlementMoves(s: World, e: Event)
    requires e.t < |s.tasks| && UsesCurrent(s, s.tasks[e.t]) && Step(s, e).Some? && GroupOf(e.op) == Settlement
    ensures TaskMoves(s, e)
  {
  }

  lemma RetryingMoves(s: World, e: Event)
    requires e.t < |s.tasks| && UsesCurrent(s, s.tasks[e.t]) && Step(s, e).Some? && GroupOf(e.op) == Retrying
    ensures TaskMoves(s, e)
  {
  }

  lemma SwitchingMoves(s: World, e: Event)
    requires e.t < |s.tasks| && UsesCurrent(s, s.tasks[e.t]) && Step(s, e).Some? && GroupOf(e.op) == Switching
    ensures TaskMoves(s, e)
  {
  }

  lemma ClearingMoves(s: World, e: Event)
    requires e.t < |s.tasks| && UsesCurrent(s, s.tasks[e.t]) && Step(s, e).Some? && GroupOf(e.op) == Clearing
    ensures TaskMoves(s, e)
  {
  }

  lemma MoveKeepsLockInv(s: World, s': World, t: Task)
    requires LockInv(s) && t < |s.tasks| && t < |s'.tasks| && Moves(s, s', t, s.tasks[t], s'.tasks[t])
    ensures LockInv(s')
  {
  }

  lemma StepMoves(s: World, e: Event)
    requires LockInv(s) && Step(s, e).Some? && GroupOf(e.op) != Adding
    ensures e.t < |s.tasks| && TaskMoves(s, e)
  {
    match GroupOf(e.op) {
      case Guarding => GuardingMoves(s, e);
      case Connecting => ConnectingMoves(s, e);
      case Landing => LandingMoves(s, e);
      case Ending => EndingMoves(s, e);
      case Settlement => SettlementMoves(s, e);
      case Retrying => RetryingMoves(s, e);
      case Switching => SwitchingMoves(s, e);
      case _ => ClearingMoves(s, e);
    }
  }

  lemma LockInvStep(s: World, e: Event)
    requires LockInv(s) && Step(s, e).Some?
    ensures LockInv(Step(s, e).value)
  {
    var s' := Step(s, e).value;
    if GroupOf(e.op) == Adding {
      assert Adds(s, s', s'.tasks[|s.tasks|]);
    } else {
      StepMoves(s, e);
      MoveKeepsLockInv(s, s', e.t);
    }
  }
}
