// The failover loop of one connection (client/src/proxy.rs), while other tasks
// change the status of any backend at any time.
module Failover {
  import opened PeerInfo
  import opened Backends
  import opened Config

  // A status that some other task sets.
  datatype Change = Change(id: nat, status: Status)

  // One turn of the loop as the rest of the program plays it: what changes
  // before the pick, how the balancer picks, what changes during the attempt,
  // and how the attempt ends.
  datatype Turn = Turn(before: seq<Change>, balancer: Balancer, during: seq<Change>, ok: bool)

  function Apply(statuses: seq<Status>, changes: seq<Change>): (r: seq<Status>)
    ensures |r| == |statuses|
  {
    if changes == [] then statuses
    else
      var c := changes[|changes| - 1];
      var s := Apply(statuses, changes[..|changes| - 1]);
      if c.id < |s| then s[c.id := c.status] else s
  }

  // How many of the changes make a backend Normal that was not.
  function Recoveries(statuses: seq<Status>, changes: seq<Change>): nat {
    if changes == [] then 0
    else
      var c := changes[|changes| - 1];
      var s := Apply(statuses, changes[..|changes| - 1]);
      Recoveries(statuses, changes[..|changes| - 1]) +
      if c.id < |s| && s[c.id] != Normal && c.status == Normal then 1 else 0
  }

  function NormalCount(statuses: seq<Status>): nat {
    if statuses == [] then 0
    else NormalCount(statuses[..|statuses| - 1]) + if statuses[|statuses| - 1] == Normal then 1 else 0
  }

  lemma {:induction false} NormalCountUpdate(s: seq<Status>, i: nat, st: Status)
    requires i < |s|
    ensures NormalCount(s[i := st]) + (if s[i] == Normal then 1 else 0)
      == NormalCount(s) + if st == Normal then 1 else 0
  {
    var n := |s| - 1;
    if i == n {
      assert s[i := st][..n] == s[..n];
    } else {
      assert s[i := st][..n] == s[..n][i := st];
      NormalCountUpdate(s[..n], i, st);
    }
  }

  lemma {:induction false} NormalCountBound(s: seq<Status>)
    ensures NormalCount(s) <= |s|
  {
    if s != [] {
      NormalCountBound(s[..|s| - 1]);
    }
  }

  lemma {:induction false} RecoveriesPay(s: seq<Status>, changes: seq<Change>)
    ensures NormalCount(Apply(s, changes)) <= NormalCount(s) + Recoveries(s, changes)
    ensures forall i :: 0 <= i < |s| && s[i] == Normal && Apply(s, changes)[i] != Normal ==>
      NormalCount(Apply(s, changes)) < NormalCount(s) + Recoveries(s, changes)
  {
    if changes != [] {
      var c, rest := changes[|changes| - 1], changes[..|changes| - 1];
      RecoveriesPay(s, rest);
      if c.id < |s| {
        NormalCountUpdate(Apply(s, rest), c.id, c.status);
      }
    }
  }

  // The statuses when a turn picks.
  function AtPick(statuses: seq<Status>, turn: Turn): (r: seq<Status>)
    ensures |r| == |statuses|
  {
    Apply(statuses, turn.before)
  }

  function TurnRecoveries(statuses: seq<Status>, turn: Turn): nat {
    Recoveries(statuses, turn.before) + Recoveries(AtPick(statuses, turn), turn.during)
  }

  // A connection and what the rest of the program does during its loop.
  datatype Play = Play(names: seq<Bytes>, route: Route, turns: nat -> Turn)
  {
    function Pick(statuses: seq<Status>, k: nat): AvailableBackend
      requires |names| == |statuses|
    {
      NextAvailableBackend(names, AtPick(statuses, turns(k)), route, turns(k).balancer)
    }

    // The statuses after turn k, if its attempt failed: the backend is marked.
    function AfterFailure(statuses: seq<Status>, k: nat): (r: seq<Status>)
      requires |names| == |statuses|
      ensures |r| == |statuses|
    {
      var s := Apply(AtPick(statuses, turns(k)), turns(k).during);
      match Pick(statuses, k)
      case GotBackend(id) => if id < |s| then s[id := Closed] else s
      case _ => s
    }

    // The statuses at the start of turn k, when the turns before it failed.
    function StatusesAt(initial: seq<Status>, k: nat): (r: seq<Status>)
      requires |names| == |initial|
      ensures |r| == |initial|
    {
      if k == 0 then initial else AfterFailure(StatusesAt(initial, k - 1), k - 1)
    }

    // How often a backend became Normal again in the turns before k.
    function RecoveriesBy(initial: seq<Status>, k: nat): nat
      requires |names| == |initial|
    {
      if k == 0 then 0
      else RecoveriesBy(initial, k - 1) + TurnRecoveries(StatusesAt(initial, k - 1), turns(k - 1))
    }

    // Turn k tried a backend and failed.
    predicate Failed(initial: seq<Status>, k: nat)
      requires |names| == |initial|
    {
      !turns(k).ok && Pick(StatusesAt(initial, k), k).GotBackend?
    }

    // So did every turn before k.
    predicate AllFailed(initial: seq<Status>, k: nat)
      requires |names| == |initial|
    {
      k == 0 || (AllFailed(initial, k - 1) && Failed(initial, k - 1))
    }
  }

  // A failed attempt uses up one Normal backend or one recovery.
  lemma {:induction false} FailurePays(play: Play, s: seq<Status>, k: nat)
    requires |play.names| == |s| && play.Pick(s, k).GotBackend?
    ensures NormalCount(play.AfterFailure(s, k)) + 1 <= NormalCount(s) + TurnRecoveries(s, play.turns(k))
  {
    var turn, id := play.turns(k), play.Pick(s, k).id;
    var picked := AtPick(s, turn);
    var ended := Apply(picked, turn.during);
    HandsOutNormal(play.names, picked, play.route, turn.balancer);
    assert play.AfterFailure(s, k) == ended[id := Closed];
    MarkPays(s, turn, id);
  }

  lemma MarkPays(s: seq<Status>, turn: Turn, id: nat)
    requires id < |s| && AtPick(s, turn)[id] == Normal
    ensures NormalCount(Apply(AtPick(s, turn), turn.during)[id := Closed]) + 1
      <= NormalCount(s) + TurnRecoveries(s, turn)
  {
    var picked := AtPick(s, turn);
    RecoveriesPay(s, turn.before);
    RecoveriesPay(picked, turn.during);
    NormalCountUpdate(Apply(picked, turn.during), id, Closed);
  }

  // What is left after n failed turns: a backend or a recovery for each.
  ghost predicate PaidFor(play: Play, initial: seq<Status>, n: nat)
    requires |play.names| == |initial|
  {
    n + NormalCount(play.StatusesAt(initial, n)) <= |initial| + play.RecoveriesBy(initial, n)
  }

  lemma FailedTurnPays(play: Play, initial: seq<Status>, k: nat)
    requires |play.names| == |initial| && play.Failed(initial, k) && PaidFor(play, initial, k)
    ensures PaidFor(play, initial, k + 1)
  {
    FailurePays(play, play.StatusesAt(initial, k), k);
  }

  // Failed turns are at most (number of backends) + (number of recoveries).
  lemma {:induction false} FailuresBounded(play: Play, initial: seq<Status>, n: nat)
    requires |play.names| == |initial| && play.AllFailed(initial, n)
    ensures PaidFor(play, initial, n)
  {
    if n == 0 {
      NormalCountBound(initial);
    } else {
      FailuresBounded(play, initial, n - 1);
      FailedTurnPays(play, initial, n - 1);
    }
  }

  datatype Outcome = Connected(id: nat) | Ended(reason: AvailableBackend)

  // When there are at most `recoveries` recoveries in all, the loop ends,
  // whatever the other tasks do.
  method HandleConnection(play: Play, initial: seq<Status>, ghost recoveries: nat)
    returns (outcome: Outcome, fails: nat)
    requires |play.names| == |initial|
    requires forall k: nat :: play.RecoveriesBy(initial, k) <= recoveries
    ensures fails <= |initial| + play.RecoveriesBy(initial, fails)
    ensures play.AllFailed(initial, fails)
    ensures match play.Pick(play.StatusesAt(initial, fails), fails)
      case GotBackend(id) => play.turns(fails).ok && outcome == Connected(id)
      case other => outcome == Ended(other)
    ensures outcome == Ended(Direct) <==> play.route.DirectRoute?
    ensures outcome == Ended(Direct) ==> fails == 0
    ensures play.route.Balanced? && AlwaysPicks(play) && Undisturbed(play) ==>
      && fails <= NormalCount(initial) && (outcome == Ended(NoBackend) <==> fails == NormalCount(initial))
      && (outcome.Connected? ==> outcome.id < |initial| && initial[outcome.id] == Normal)
  {
    fails := 0;
    var now := initial;
    while true
      invariant now == play.StatusesAt(initial, fails)
      invariant play.AllFailed(initial, fails)
      invariant fails <= |initial| + recoveries
      invariant fails <= |initial| + play.RecoveriesBy(initial, fails)
      decreases |initial| + recoveries - fails
    {
      var turn := play.turns(fails);
      var picked := Apply(now, turn.before);
      match NextAvailableBackend(play.names, picked, play.route, turn.balancer) {
        case GotBackend(id) =>
          HandsOutNormal(play.names, picked, play.route, turn.balancer);
          now := Apply(picked, turn.during);
          if turn.ok {
            EndsAsPlayed(play, initial, fails);
            return Connected(id), fails;
          }
          now := now[id := Closed];
          assert play.Failed(initial, fails);
          fails := fails + 1;
          FailuresBounded(play, initial, fails);
          assert play.RecoveriesBy(initial, fails) <= recoveries;
        case other =>
          EndsAsPlayed(play, initial, fails);
          return Ended(other), fails;
      }
    }
  }

  // ----- What a failed attempt changes -----

  // The status that the last change addressed to backend `id` sets.
  function Latest(changes: seq<Change>, id: nat, st: Status): Status {
    if changes == [] then st
    else
      var c := changes[|changes| - 1];
      if c.id == id then c.status else Latest(changes[..|changes| - 1], id, st)
  }

  lemma {:induction false} AppliedIsLatest(s: seq<Status>, changes: seq<Change>, id: nat)
    requires id < |s|
    ensures Apply(s, changes)[id] == Latest(changes, id, s[id])
  {
    if changes != [] {
      AppliedIsLatest(s, changes[..|changes| - 1], id);
    }
  }

  lemma {:induction false} LatestAppends(a: seq<Change>, b: seq<Change>, id: nat, st: Status)
    ensures Latest(a + b, id, st) == Latest(b, id, Latest(a, id, st))
  {
    if b == [] {
      assert a + b == a;
    } else {
      assert (a + b)[..|a + b| - 1] == a + b[..|b| - 1];
      LatestAppends(a, b[..|b| - 1], id, st);
    }
  }

  // A turn closes the backend that it tried, and every other backend has the
  // status that the other tasks' changes alone give it.
  lemma {:induction false} ClosesOnlyTried(play: Play, initial: seq<Status>, k: nat, id: nat)
    requires |play.names| == |initial| && id < |initial|
    ensures play.StatusesAt(initial, k + 1)[id] ==
      if Tries(play, initial, k, id) then Closed
      else Latest(play.turns(k).before + play.turns(k).during, id, play.StatusesAt(initial, k)[id])
  {
    var s, turn := play.StatusesAt(initial, k), play.turns(k);
    AppliedIsLatest(s, turn.before, id);
    AppliedIsLatest(AtPick(s, turn), turn.during, id);
    LatestAppends(turn.before, turn.during, id, s[id]);
  }

  // ----- A connection that no other task disturbs -----

  // No other task changes a status.
  ghost predicate Undisturbed(play: Play) {
    forall k: nat :: play.turns(k).before == [] && play.turns(k).during == []
  }

  // The balancer picks a listed position.
  ghost predicate AlwaysPicks(play: Play) {
    forall k: nat, ids: seq<nat> :: ids != [] ==> Picks(play.turns(k).balancer, ids)
  }

  predicate Picks(balancer: Balancer, ids: seq<nat>) {
    balancer(ids).Some? && balancer(ids).value < |ids|
  }

  // One of the turns before n tried the backend.
  ghost predicate TriedBefore(play: Play, initial: seq<Status>, n: nat, id: nat)
    requires |play.names| == |initial|
  {
    exists k: nat :: k < n && Tries(play, initial, k, id)
  }

  // What is left after n failed turns: the Normal backends that none tried.
  ghost predicate Untried(play: Play, initial: seq<Status>, n: nat)
    requires |play.names| == |initial|
  {
    && n + NormalCount(play.StatusesAt(initial, n)) == NormalCount(initial)
    && forall id: nat :: id < |initial| ==> UntriedOne(play, initial, n, id)
  }

  // A backend that was Normal still is, or has been tried; and no other is.
  ghost predicate UntriedOne(play: Play, initial: seq<Status>, n: nat, id: nat)
    requires |play.names| == |initial| && id < |initial|
  {
    var up, tried := play.StatusesAt(initial, n)[id] == Normal, TriedBefore(play, initial, n, id);
    (initial[id] == Normal <==> up || tried) && !(up && tried)
  }

  lemma {:induction false} TriedNext(play: Play, initial: seq<Status>, k: nat, id: nat)
    requires |play.names| == |initial|
    ensures TriedBefore(play, initial, k + 1, id) <==>
      TriedBefore(play, initial, k, id) || Tries(play, initial, k, id)
  {
    if TriedBefore(play, initial, k, id) {
      var j: nat :| j < k && Tries(play, initial, j, id);
      assert j < k + 1;
    }
  }

  lemma {:induction false} UntriedLeft(play: Play, initial: seq<Status>, n: nat)
    requires |play.names| == |initial| && Undisturbed(play) && play.AllFailed(initial, n)
    ensures Untried(play, initial, n)
  {
    if n > 0 {
      UntriedLeft(play, initial, n - 1);
      UntriedNext(play, initial, n - 1);
    }
  }

  lemma {:induction false} UntriedNext(play: Play, initial: seq<Status>, k: nat)
    requires |play.names| == |initial| && Undisturbed(play) && play.Failed(initial, k) && Untried(play, initial, k)
    ensures Untried(play, initial, k + 1)
  {
    var s := play.StatusesAt(initial, k);
    var id := play.Pick(s, k).id;
    TriesNormal(play, initial, k, id);
    NormalCountUpdate(s, id, Closed);
    var n := k + 1;
    forall i: nat | i < |initial|
      ensures UntriedOne(play, initial, n, i)
    {
      assert UntriedOne(play, initial, k, i);
      TriedNext(play, initial, k, i);
      ClosesOnlyTried(play, initial, k, i);
    }
  }

  lemma {:induction false} CountsNormal(s: seq<Status>)
    ensures NormalCount(s) == 0 <==> Normal !in s
  {
    if s != [] {
      CountsNormal(s[..|s| - 1]);
      assert s == s[..|s| - 1] + [s[|s| - 1]];
    }
  }

  // Undisturbed, a balanced connection tries each backend that was Normal once
  // and no other, until an attempt succeeds or all of them have failed.
  lemma {:induction false} TriesEveryNormal(play: Play, initial: seq<Status>, n: nat)
    requires |play.names| == |initial| && play.route.Balanced? && play.AllFailed(initial, n)
    requires Undisturbed(play) && AlwaysPicks(play)
    ensures n <= NormalCount(initial)
    ensures match play.Pick(play.StatusesAt(initial, n), n)
      case NoBackend => n == NormalCount(initial) &&
        forall id: nat :: id < |initial| ==> (initial[id] == Normal <==> TriedBefore(play, initial, n, id))
      case GotBackend(id) => n < NormalCount(initial) &&
        id < |initial| && initial[id] == Normal && !TriedBefore(play, initial, n, id)
      case _ => false
  {
    UntriedLeft(play, initial, n);
    var s, balancer := play.StatusesAt(initial, n), play.turns(n).balancer;
    CountsNormal(s);
    HandsOutNormal(play.names, s, play.route, balancer);
    BalancedFindsNormal(play.names, s, balancer);
    assert AvailableBackends(s) != [] ==> Picks(balancer, AvailableBackends(s));
    if play.Pick(s, n).GotBackend? {
      assert UntriedOne(play, initial, n, play.Pick(s, n).id);
    } else {
      forall id: nat | id < |initial|
        ensures initial[id] == Normal <==> TriedBefore(play, initial, n, id)
      {
        assert UntriedOne(play, initial, n, id) && s[id] in s;
      }
    }
  }

  // What the loop's end says of the play.
  lemma {:induction false} EndsAsPlayed(play: Play, initial: seq<Status>, n: nat)
    requires |play.names| == |initial| && play.AllFailed(initial, n)
    ensures play.Pick(play.StatusesAt(initial, n), n) == Direct <==> play.route.DirectRoute?
    ensures play.route.DirectRoute? ==> n == 0
    ensures play.route.Balanced? && AlwaysPicks(play) && Undisturbed(play) ==>
      match play.Pick(play.StatusesAt(initial, n), n)
      case NoBackend => n == NormalCount(initial)
      case GotBackend(id) => n < NormalCount(initial) && id < |initial| && initial[id] == Normal
      case _ => false
  {
    if play.route.Balanced? && AlwaysPicks(play) && Undisturbed(play) {
      TriesEveryNormal(play, initial, n);
    }
  }

  // A connection whose peer's section asks for that is sent directly, with no
  // attempt made; and no other connection is.
  lemma {:induction false} DirectPeersTryNothing(play: Play, initial: seq<Status>, table: Table, host: Bytes, n: nat)
    requires |play.names| == |initial| && play.route == BackendByRule(RuleFor(table, host, HostRules.Unknown))
    requires play.AllFailed(initial, n)
    ensures AsksDirect(table, host) ==> n == 0
    ensures play.Pick(play.StatusesAt(initial, n), n) == Direct <==> AsksDirect(table, host)
  {
    EndsAsPlayed(play, initial, n);
    DirectIffAsked(table, host, play.names, AtPick(play.StatusesAt(initial, n), play.turns(n)), play.turns(n).balancer);
  }

  // Undisturbed, a connection whose section names a backend tries that one at
  // most once, and is blocked when it fails.
  lemma {:induction false} NamedPeersTryOnce(play: Play, initial: seq<Status>, table: Table, host: Bytes, name: Bytes,
                                             n: nat)
    requires |play.names| == |initial| && play.route == BackendByRule(RuleFor(table, host, HostRules.Unknown))
    requires AsksFor(table, host, name) && Undisturbed(play) && play.AllFailed(initial, n)
    ensures n <= 1
    ensures match play.Pick(play.StatusesAt(initial, n), n)
      case GotBackend(id) => n == 0 && id < |initial| && play.names[id] == name && initial[id] == Normal
      case d => d == Block
  {
    var s := play.StatusesAt(initial, n);
    PicksNamed(play, s, table, host, name, n);
    if n > 0 {
      NamedPeersTryOnce(play, initial, table, host, name, n - 1);
      assert play.Failed(initial, 0) && n == 1;
      PicksNamed(play, initial, table, host, name, 0);
      var id := play.Pick(initial, 0).id;
      assert s[id] == Closed;
    }
  }

  lemma PicksNamed(play: Play, s: seq<Status>, table: Table, host: Bytes, name: Bytes, k: nat)
    requires |play.names| == |s| && play.route == BackendByRule(RuleFor(table, host, HostRules.Unknown))
    requires AsksFor(table, host, name) && Undisturbed(play)
    ensures match play.Pick(s, k)
      case GotBackend(id) =>
        id < |s| && play.names[id] == name && name !in play.names[..id] && s[id] == Normal
      case d => d == Block
  {
    var d := play.Pick(s, k);
    NamedIffNormal(table, host, name, play.names, s, play.turns(k).balancer, if d.GotBackend? then d.id else 0);
  }

  // Some other task set backend `id` to Normal.
  predicate Restores(changes: seq<Change>, id: nat) {
    Change(id, Normal) in changes
  }

  lemma {:induction false} StaysDown(s: seq<Status>, changes: seq<Change>, id: nat)
    requires id < |s| && s[id] != Normal && !Restores(changes, id)
    ensures Apply(s, changes)[id] != Normal
  {
    if changes != [] {
      assert changes[|changes| - 1] in changes;
      StaysDown(s, changes[..|changes| - 1], id);
    }
  }

  // No other task restores backend `id` during turn k.
  predicate Leaves(play: Play, k: nat, id: nat) {
    !Restores(play.turns(k).before, id) && !Restores(play.turns(k).during, id)
  }

  // Nor during turns a to b - 1.
  predicate LeftDown(play: Play, a: nat, b: nat, id: nat)
    decreases b
  {
    a >= b || (LeftDown(play, a, b - 1, id) && Leaves(play, b - 1, id))
  }

  ghost predicate Down(play: Play, initial: seq<Status>, k: nat, id: nat)
    requires |play.names| == |initial| && id < |initial|
  {
    play.StatusesAt(initial, k)[id] != Normal
  }

  ghost predicate Tries(play: Play, initial: seq<Status>, k: nat, id: nat)
    requires |play.names| == |initial|
  {
    play.Pick(play.StatusesAt(initial, k), k) == GotBackend(id)
  }

  // No backend is tried again after a failure unless it was restored between.
  lemma {:induction false} TriedAgainOnlyIfRestored(play: Play, initial: seq<Status>, a: nat, b: nat, id: nat)
    requires |play.names| == |initial| && a < b
    requires Tries(play, initial, a, id) && Tries(play, initial, b, id)
    ensures !LeftDown(play, a + 1, b, id) || Restores(play.turns(b).before, id)
  {
    TriesNormal(play, initial, a, id);
    TriesNormal(play, initial, b, id);
    if LeftDown(play, a + 1, b, id) && !Restores(play.turns(b).before, id) {
      MarkedDown(play, initial, a, id);
      DownSince(play, initial, a + 1, b, id);
      StaysDown(play.StatusesAt(initial, b), play.turns(b).before, id);
    }
  }

  lemma {:induction false} TriesNormal(play: Play, initial: seq<Status>, k: nat, id: nat)
    requires |play.names| == |initial| && Tries(play, initial, k, id)
    ensures id < |initial| && AtPick(play.StatusesAt(initial, k), play.turns(k))[id] == Normal
  {
    HandsOutNormal(play.names, AtPick(play.StatusesAt(initial, k), play.turns(k)), play.route, play.turns(k).balancer);
  }

  lemma {:induction false} DownSince(play: Play, initial: seq<Status>, a: nat, b: nat, id: nat)
    requires |play.names| == |initial| && a <= b && id < |initial|
    requires Down(play, initial, a, id) && LeftDown(play, a, b, id)
    ensures Down(play, initial, b, id)
    decreases b
  {
    if a < b {
      DownSince(play, initial, a, b - 1, id);
      StillDown(play, initial, b - 1, id);
    }
  }

  lemma MarkedDown(play: Play, initial: seq<Status>, k: nat, id: nat)
    requires |play.names| == |initial| && id < |initial| && Tries(play, initial, k, id)
    ensures Down(play, initial, k + 1, id)
  {
  }

  lemma StillDown(play: Play, initial: seq<Status>, k: nat, id: nat)
    requires |play.names| == |initial| && id < |initial| && Down(play, initial, k, id) && Leaves(play, k, id)
    ensures Down(play, initial, k + 1, id)
  {
    var s := play.StatusesAt(initial, k);
    StaysDown(s, play.turns(k).before, id);
    StaysDown(AtPick(s, play.turns(k)), play.turns(k).during, id);
  }
}
