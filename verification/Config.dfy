// The choice of a backend for one attempt (client/src/config.rs).
module Config {
  import opened Wrappers
  import opened PeerInfo
  import opened Backends
  import opened Balance

  // The balancer's answer for a list: a position in it, or nothing.
  type Balancer = seq<nat> -> Option<nat>

  datatype AvailableBackend = Direct | Block | NoBackend | GotBackend(id: nat)

  // The backends whose status is Normal, in order.
  function AvailableBackends(statuses: seq<Status>): (ids: seq<nat>)
    ensures forall id: nat :: id in ids <==> id < |statuses| && statuses[id] == Normal
  {
    if statuses == [] then []
    else
      var n := |statuses| - 1;
      AvailableBackends(statuses[..n]) + if statuses[n] == Normal then [n] else []
  }

  // The first backend of that name.
  function FindBackend(names: seq<Bytes>, name: Bytes): (r: Option<nat>)
    ensures r.Some? ==> r.value < |names| && names[r.value] == name && name !in names[..r.value]
    ensures r.None? ==> name !in names
  {
    if names == [] then None
    else if names[0] == name then Some(0)
    else match FindBackend(names[1..], name)
      case Some(i) => Some(i + 1)
      case None => None
  }

  function NextAvailableBackend(names: seq<Bytes>, statuses: seq<Status>, route: Route,
    balancer: Balancer): AvailableBackend
    requires |names| == |statuses|
  {
    match route
    case DirectRoute => Direct
    case Named(name) =>
      (match FindBackend(names, name)
       case Some(i) => if statuses[i] == Normal then GotBackend(i) else Block
       case None => Block)
    case Balanced =>
      var ids := AvailableBackends(statuses);
      if ids == [] then NoBackend
      else if |ids| == 1 then GotBackend(ids[0])
      else match balancer(ids)
        case Some(k) => if k < |ids| then GotBackend(ids[k]) else NoBackend
        case None => NoBackend
  }

  // Only a Normal backend is handed out: the one a rule names, or any that the
  // balancer picks.
  lemma HandsOutNormal(names: seq<Bytes>, statuses: seq<Status>, route: Route, balancer: Balancer)
    requires |names| == |statuses|
    ensures match NextAvailableBackend(names, statuses, route, balancer)
      case GotBackend(id) => id < |statuses| && statuses[id] == Normal && (route.Named? ==> names[id] == route.backend)
      case Direct => route.DirectRoute?
      case Block => route.Named? &&
        (route.backend in names ==>
          exists id :: 0 <= id < |names| && names[id] == route.backend && statuses[id] != Normal)
      case NoBackend => route.Balanced?
  {
    var ids := AvailableBackends(statuses);
    assert forall k :: 0 <= k < |ids| ==> ids[k] in ids;
  }

  // ----- What a peer's rule decides -----

  // The decision for a peer, with the rule that the table has for it.
  function Decision(table: Table, host: Bytes, names: seq<Bytes>, statuses: seq<Status>, balancer: Balancer):
    AvailableBackend
    requires |names| == |statuses|
  {
    NextAvailableBackend(names, statuses, BackendByRule(RuleFor(table, host, HostRules.Unknown)), balancer)
  }

  // The peer's section asks for a direct connection.
  predicate AsksDirect(table: Table, host: Bytes) {
    Hostname(host) in table && table[Hostname(host)].direct
  }

  // It names a backend.
  predicate AsksFor(table: Table, host: Bytes, name: Bytes) {
    Hostname(host) in table && !table[Hostname(host)].direct && table[Hostname(host)].backend == Some(name)
  }

  // A peer is sent directly if and only if its section asks for that, whatever
  // else the section says and whichever backends are up.
  lemma DirectIffAsked(table: Table, host: Bytes, names: seq<Bytes>, statuses: seq<Status>, balancer: Balancer)
    requires |names| == |statuses|
    ensures Decision(table, host, names, statuses, balancer) == Direct <==> AsksDirect(table, host)
  {
  }

  // Where a section names a backend the peer gets that one, the first of its
  // name, if and only if it is Normal, and is blocked otherwise.
  lemma NamedIffNormal(table: Table, host: Bytes, name: Bytes, names: seq<Bytes>, statuses: seq<Status>,
    balancer: Balancer, id: nat)
    requires |names| == |statuses| && AsksFor(table, host, name)
    ensures var d := Decision(table, host, names, statuses, balancer);
      && (d == GotBackend(id) <==>
          id < |names| && names[id] == name && name !in names[..id] && statuses[id] == Normal)
      && (d == Block <==> forall i: nat :: i < |names| && names[i] == name && name !in names[..i] ==>
          statuses[i] != Normal)
      && (d.GotBackend? || d.Block?)
  {
    if i: nat :| i < |names| && names[i] == name && name !in names[..i] {
      FoundFirst(names, name, i);
    }
    if id < |names| && names[id] == name && name !in names[..id] {
      FoundFirst(names, name, id);
    }
  }

  lemma {:induction false} FoundFirst(names: seq<Bytes>, name: Bytes, i: nat)
    requires i < |names| && names[i] == name && name !in names[..i]
    ensures FindBackend(names, name) == Some(i)
  {
    if i > 0 {
      assert names[..i][0] == names[0];
      assert names[1..][..i - 1] == names[..i][1..];
      FoundFirst(names[1..], name, i - 1);
    }
  }

  // Every other peer is balanced: it gets what one without a rule gets, which
  // is never a block.
  lemma OthersAreBalanced(table: Table, host: Bytes, names: seq<Bytes>, statuses: seq<Status>, balancer: Balancer)
    requires |names| == |statuses|
    requires !AsksDirect(table, host) && forall name :: !AsksFor(table, host, name)
    ensures Decision(table, host, names, statuses, balancer) == Decision(map[], host, names, statuses, balancer)
    ensures Decision(table, host, names, statuses, balancer) !in {Direct, Block}
  {
    if Hostname(host) in table && table[Hostname(host)].backend.Some? {
      assert AsksFor(table, host, table[Hostname(host)].backend.value);
    }
  }

  predicate Ascending(ids: seq<nat>) {
    forall i, j :: 0 <= i < j < |ids| ==> ids[i] < ids[j]
  }

  // The list keeps the configured order.
  lemma {:induction false} AvailableInOrder(statuses: seq<Status>)
    ensures Ascending(AvailableBackends(statuses))
  {
    if statuses != [] {
      var n := |statuses| - 1;
      var before := AvailableBackends(statuses[..n]);
      AvailableInOrder(statuses[..n]);
      assert forall i :: 0 <= i < |before| ==> before[i] in before;
      assert Ascending(before) && Ascending(before + [n]);
    }
  }

  // While some backend is Normal, a balanced connection goes without one only
  // if there are several and the balancer picks none.
  lemma {:induction false} BalancedFindsNormal(names: seq<Bytes>, statuses: seq<Status>, balancer: Balancer)
    requires |names| == |statuses|
    ensures var ids := AvailableBackends(statuses);
      NextAvailableBackend(names, statuses, Balanced, balancer) == NoBackend <==>
      Normal !in statuses || (|ids| > 1 && (balancer(ids).None? || balancer(ids).value >= |ids|))
  {
    var ids := AvailableBackends(statuses);
    assert forall k :: 0 <= k < |ids| ==> ids[k] in ids;
    if Normal in statuses {
      var id: nat :| id < |statuses| && statuses[id] == Normal;
      assert id in ids;
    }
  }

  // The filtered table, or none, decides as the original does.
  lemma FilteredRulesDecideTheSame(table: Table, host: Bytes, names: seq<Bytes>, statuses: seq<Status>,
    balancer: Balancer)
    requires |names| == |statuses|
    ensures var ruler := if Kept(table) == map[] then None else Some(Kept(table));
      NextAvailableBackend(names, statuses, BackendByRule(RuleAfter(ruler, host, HostRules.Unknown)), balancer)
      == NextAvailableBackend(names, statuses, BackendByRule(RuleFor(table, host, HostRules.Unknown)), balancer)
  {
    InertSectionsUnobservable(table, host);
  }

  // ----- With the round robin balancer -----

  // How many of the next k balanced connections get backend `id`, while no
  // status changes and the balancer's stored index is `index`.
  function Given(names: seq<Bytes>, statuses: seq<Status>, index: nat, k: nat, id: nat): nat
    requires |names| == |statuses| && AvailableBackends(statuses) != []
    decreases k
  {
    if k == 0 then 0
    else
      var got := NextAvailableBackend(names, statuses, Balanced, ids => if index < |ids| then Some(index) else None);
      (if got == GotBackend(id) then 1 else 0)
      + Given(names, statuses, NextIndex(index, |AvailableBackends(statuses)|), k - 1, id)
  }

  lemma {:induction false} GivenIsHits(names: seq<Bytes>, statuses: seq<Status>, index: nat, k: nat, a: nat)
    requires |names| == |statuses|
    requires var ids := AvailableBackends(statuses); index < |ids| && a < |ids|
    ensures var ids := AvailableBackends(statuses); Given(names, statuses, index, k, ids[a]) == Hits(index, |ids|, k, a)
    decreases k
  {
    if k > 0 {
      AvailableInOrder(statuses);
      GivenIsHits(names, statuses, NextIndex(index, |AvailableBackends(statuses)|), k - 1, a);
    }
  }

  lemma {:induction false} DownGetsNone(names: seq<Bytes>, statuses: seq<Status>, index: nat, k: nat, id: nat)
    requires |names| == |statuses| && AvailableBackends(statuses) != []
    requires id < |statuses| ==> statuses[id] != Normal
    ensures Given(names, statuses, index, k, id) == 0
    decreases k
  {
    if k > 0 {
      HandsOutNormal(names, statuses, Balanced, ids => if index < |ids| then Some(index) else None);
      DownGetsNone(names, statuses, NextIndex(index, |AvailableBackends(statuses)|), k - 1, id);
    }
  }

  // Of any n consecutive balanced connections, while the same n backends are
  // up, each of those gets exactly one and no other backend gets any.
  lemma {:induction false} RoundRobinSpreads(names: seq<Bytes>, statuses: seq<Status>, index: nat, id: nat)
    requires |names| == |statuses| && index < |AvailableBackends(statuses)|
    ensures Given(names, statuses, index, |AvailableBackends(statuses)|, id)
      == if id < |statuses| && statuses[id] == Normal then 1 else 0
  {
    var ids := AvailableBackends(statuses);
    if id < |statuses| && statuses[id] == Normal {
      assert id in ids;
      var a :| 0 <= a < |ids| && ids[a] == id;
      GivenIsHits(names, statuses, index, |ids|, a);
      RoundRobinFair(index, |ids|, |ids|, a, a);
    } else {
      DownGetsNone(names, statuses, index, |ids|, id);
    }
  }

  // ----- With the hash ring -----

  // How many available backends come before `id`.
  function Rank(statuses: seq<Status>, id: nat): nat
    requires id <= |statuses|
  {
    |AvailableBackends(statuses[..id])|
  }

  lemma {:induction false} AvailableAppends(a: seq<Status>, b: seq<Status>)
    ensures AvailableBackends(a) <= AvailableBackends(a + b)
  {
    if b == [] {
      assert a + b == a;
    } else {
      assert (a + b)[..|a + b| - 1] == a + b[..|b| - 1];
      AvailableAppends(a, b[..|b| - 1]);
    }
  }

  // A backend that is up is listed at its rank, and no other position.
  lemma {:induction false} ListedAtRank(statuses: seq<Status>, id: nat, k: nat)
    requires id < |statuses| && k < |AvailableBackends(statuses)|
    ensures AvailableBackends(statuses)[k] == id <==> statuses[id] == Normal && k == Rank(statuses, id)
  {
    var ids := AvailableBackends(statuses);
    AvailableInOrder(statuses);
    assert ids[k] in ids;
    if statuses[id] == Normal {
      UpAtRank(statuses, id);
    }
  }

  lemma {:induction false} UpAtRank(statuses: seq<Status>, id: nat)
    requires id < |statuses| && statuses[id] == Normal
    ensures var ids := AvailableBackends(statuses); Rank(statuses, id) < |ids| && ids[Rank(statuses, id)] == id
  {
    var next := statuses[..id + 1];
    assert next[..id] == statuses[..id];
    assert AvailableBackends(next) == AvailableBackends(statuses[..id]) + [id];
    assert next + statuses[id + 1..] == statuses;
    AvailableAppends(next, statuses[id + 1..]);
  }

  lemma {:induction false} RankIsIdIffAllUp(statuses: seq<Status>, id: nat)
    requires id <= |statuses|
    ensures Rank(statuses, id) <= id
    ensures Rank(statuses, id) == id <==> forall i :: 0 <= i < id ==> statuses[i] == Normal
  {
    if id > 0 {
      RankIsIdIffAllUp(statuses, id - 1);
      assert statuses[..id][..id - 1] == statuses[..id - 1];
    }
  }

  // The ring's own backend is handed out exactly when it is up and the probe
  // ends at its place in the list; the lone backend that is up is always
  // handed out. An id within the list's length is its own place exactly when
  // every backend before it is up.
  lemma {:induction false} RingGetsOwnBackend(names: seq<Bytes>, statuses: seq<Status>, ring: nat)
    requires |names| == |statuses| && ring < |statuses|
    ensures var n := |AvailableBackends(statuses)|;
      var got := NextAvailableBackend(names, statuses, Balanced, ids => if |ids| > 0 then Some(Probe(ring, |ids|))
        else None);
      && (got == GotBackend(ring) <==> statuses[ring] == Normal && (n == 1 || Rank(statuses, ring) == Probe(ring, n)))
      && (n > 1 && ring < n ==> (got == GotBackend(ring) <==> forall i :: 0 <= i <= ring ==> statuses[i] == Normal))
  {
    var ids := AvailableBackends(statuses);
    if ids == [] {
      assert statuses[ring] == Normal ==> ring in ids;
    } else if |ids| == 1 {
      assert ring in ids ==> ids[0] == ring;
    } else {
      ListedAtRank(statuses, ring, Probe(ring, |ids|));
      RankIsIdIffAllUp(statuses, ring);
    }
  }

  // With every backend up the ring's own backend is handed out.
  lemma RingChoosesWhenAllUp(names: seq<Bytes>, statuses: seq<Status>, ring: nat)
    requires |names| == |statuses| && ring < |statuses|
    requires forall i :: 0 <= i < |statuses| ==> statuses[i] == Normal
    ensures NextAvailableBackend(names, statuses, Balanced, ids => if |ids| > 0 then Some(Probe(ring, |ids|)) else None)
      == GotBackend(ring)
  {
    RankIsIdIffAllUp(statuses, |statuses|);
    assert statuses[..|statuses|] == statuses;
    RingGetsOwnBackend(names, statuses, ring);
  }
}
