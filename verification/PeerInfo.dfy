// Hosts, host rules and routes of a connection (client/src/metric.rs,
// client/src/config.rs).
module PeerInfo {
  import opened Wrappers

  newtype byte = x: int | 0 <= x < 256
  type Bytes = seq<byte>

  const COLON: byte := 58
  const DEFAULT_PORT: Bytes := [56, 48]

  // The position of the last colon.
  function LastColon(host: Bytes): (r: Option<nat>)
    ensures r.Some? ==> r.value < |host| && host[r.value] == COLON && COLON !in host[r.value + 1..]
    ensures r.None? ==> COLON !in host
  {
    if host == [] then None
    else if host[|host| - 1] == COLON then Some(|host| - 1)
    else LastColon(host[..|host| - 1])
  }

  lemma {:induction false} LastColonUnique(host: Bytes, i: nat)
    requires i < |host| && host[i] == COLON && COLON !in host[i + 1..]
    ensures LastColon(host) == Some(i)
  {
    var n := |host| - 1;
    if i < n {
      assert host[i + 1..][n - i - 1] == host[n];
      assert host[..n][i + 1..] <= host[i + 1..];
      LastColonUnique(host[..n], i);
    }
  }

  function Hostname(host: Bytes): Bytes {
    match LastColon(host)
    case Some(i) => host[..i]
    case None => host
  }

  function PortStr(host: Bytes): Bytes {
    match LastColon(host)
    case Some(i) => host[i + 1..]
    case None => DEFAULT_PORT
  }

  // The host with its port filled in.
  function ValidHost(host: Bytes): Bytes {
    match LastColon(host)
    case Some(_) => host
    case None => host + [COLON] + PortStr(host)
  }

  // A name and a port without a colon are read back as they were printed.
  lemma PrintedParses(name: Bytes, port: Bytes)
    requires COLON !in port
    ensures var host := name + [COLON] + port;
      Hostname(host) == name && PortStr(host) == port && ValidHost(host) == host
  {
    var host := name + [COLON] + port;
    assert host[|name| + 1..] == port && host[..|name|] == name;
    LastColonUnique(host, |name|);
  }

  // Re-parsing the printed host changes nothing.
  lemma ValidHostRoundTrip(host: Bytes)
    ensures Hostname(ValidHost(host)) == Hostname(host)
    ensures PortStr(ValidHost(host)) == PortStr(host)
    ensures ValidHost(ValidHost(host)) == ValidHost(host)
    ensures ValidHost(host) == Hostname(host) + [COLON] + PortStr(host)
  {
    if LastColon(host).None? {
      PrintedParses(host, PortStr(host));
    }
  }

  // A host without a colon is a name at port 80, and any other says its port.
  lemma PortWhenUnsaid(host: Bytes)
    ensures COLON !in host ==> Hostname(host) == host && ValidHost(host) == host + [58, 56, 48]
    ensures COLON in host ==> ValidHost(host) == host
  {
    if COLON !in host {
      assert host + [COLON] + DEFAULT_PORT == host + [58, 56, 48];
    }
  }

  datatype Section = Section(rewrite: Option<Bytes>, backend: Option<Bytes>, direct: bool)

  datatype HostRules = Unknown | NoRule | GotRule(section: Section)

  function HostByRule(host: Bytes, rule: HostRules): Bytes {
    if rule.GotRule? && rule.section.rewrite.Some?
    then rule.section.rewrite.value + [COLON] + PortStr(host)
    else ValidHost(host)
  }

  datatype Route = Balanced | DirectRoute | Named(backend: Bytes)

  function BackendByRule(rule: HostRules): Route {
    match rule
    case Unknown => Balanced
    case NoRule => Balanced
    case GotRule(section) =>
      if section.direct then DirectRoute
      else match section.backend
        case Some(name) => Named(name)
        case None => Balanced
  }

  // A rewritten host gives back exactly the rewrite and the original port,
  // even when the rewrite holds colons.
  lemma RewriteRoundTrip(host: Bytes, rule: HostRules)
    requires rule.GotRule? && rule.section.rewrite.Some?
    ensures Hostname(HostByRule(host, rule)) == rule.section.rewrite.value
    ensures PortStr(HostByRule(host, rule)) == PortStr(host)
    ensures ValidHost(HostByRule(host, rule)) == HostByRule(host, rule)
  {
    PrintedParses(rule.section.rewrite.value, PortStr(host));
  }

  type Table = map<Bytes, Section>

  // A section that asks for nothing.
  predicate Inert(section: Section) {
    section.rewrite.None? && section.backend.None? && !section.direct
  }

  function Kept(table: Table): Table {
    map name | name in table && !Inert(table[name]) :: table[name]
  }

  function RuleFor(table: Table, host: Bytes, rule: HostRules): HostRules {
    if rule.NoRule? then rule
    else if Hostname(host) in table then GotRule(table[Hostname(host)])
    else NoRule
  }

  // The rule of a peer after `find_rule_for_peer`, with or without a ruler.
  function RuleAfter(ruler: Option<Table>, host: Bytes, rule: HostRules): HostRules {
    match ruler
    case Some(table) => RuleFor(table, host, rule)
    case None => rule
  }

  class PeerInfo {
    const host: Bytes
    var rule: HostRules

    constructor (host: Bytes)
      ensures this.host == host && rule == Unknown
    {
      this.host := host;
      rule := Unknown;
    }

    method SetRule(rule: HostRules)
      modifies this
      ensures this.rule == rule
    {
      this.rule := rule;
    }
  }

  class HostRuler {
    const table: Table

    constructor (table: Table)
      ensures this.table == table
    {
      this.table := table;
    }

    // Keep the sections that ask for something; no ruler if none is left.
    static method Filter(sections: Table) returns (ruler: Option<Table>)
      ensures ruler == if Kept(sections) == map[] then None else Some(Kept(sections))
    {
      var names := sections.Keys;
      var kept: Table := map[];
      while names != {}
        invariant names <= sections.Keys
        invariant kept == map name | name in sections.Keys - names && !Inert(sections[name]) :: sections[name]
        decreases names
      {
        var name :| name in names;
        names := names - {name};
        if !Inert(sections[name]) {
          kept := kept[name := sections[name]];
        }
      }
      assert kept == Kept(sections);
      if kept.Keys == {} {
        return None;
      }
      return Some(kept);
    }

    method FindRule(peer: PeerInfo)
      modifies peer
      ensures peer.rule == RuleFor(table, peer.host, old(peer.rule))
    {
      if peer.rule.NoRule? {
        return;
      }
      var name := Hostname(peer.host);
      peer.SetRule(if name in table then GotRule(table[name]) else NoRule);
    }
  }

  predicate SameOutcome(host: Bytes, r: HostRules, r': HostRules) {
    HostByRule(host, r) == HostByRule(host, r') && BackendByRule(r) == BackendByRule(r')
  }

  // Dropping the inert sections, and the ruler with the last of them, changes
  // neither the host that is asked for nor the route.
  lemma InertSectionsUnobservable(table: Table, host: Bytes)
    ensures var ruler := if Kept(table) == map[] then None else Some(Kept(table));
      var full, filtered := RuleFor(table, host, Unknown), RuleAfter(ruler, host, Unknown);
      SameOutcome(host, filtered, full)
  {
    assert Hostname(host) in table && !Inert(table[Hostname(host)]) ==> Hostname(host) in Kept(table);
  }

  // No peer with this host can tell whether the section is there.
  predicate Unobserved(table: Table, name: Bytes, host: Bytes) {
    SameOutcome(host, RuleFor(table, host, Unknown), RuleFor(table - {name}, host, Unknown))
  }

  predicate RewritesNothing(section: Section, name: Bytes) {
    !section.direct && section.backend.None? && (section.rewrite.Some? ==> section.rewrite.value == name)
  }

  lemma UnobservedAt(table: Table, name: Bytes, host: Bytes)
    requires name in table
    ensures Unobserved(table, name, host) <==> Hostname(host) != name || RewritesNothing(table[name], name)
  {
    var without := table - {name};
    if Hostname(host) == name {
      assert RuleFor(without, host, Unknown) == NoRule;
      ValidHostRoundTrip(host);
      if table[name].rewrite.Some? {
        RewriteRoundTrip(host, GotRule(table[name]));
      }
    } else {
      assert RuleFor(without, host, Unknown) == RuleFor(table, host, Unknown);
    }
  }

  // The sections that could go unobserved are the inert ones, and those that
  // only rewrite a name to itself.
  lemma SectionUnobservableIff(table: Table, name: Bytes)
    requires name in table
    ensures (forall host :: Unobserved(table, name, host)) <==> RewritesNothing(table[name], name)
  {
    PrintedParses(name, DEFAULT_PORT);
    UnobservedAt(table, name, name + [COLON] + DEFAULT_PORT);
    forall host ensures RewritesNothing(table[name], name) ==> Unobserved(table, name, host) {
      UnobservedAt(table, name, host);
    }
  }

  // Exactly the sections that some peer can observe are kept, and those that
  // rewrite a name to itself.
  lemma KeptIffObserved(table: Table, name: Bytes)
    ensures name in Kept(table) <==>
      name in table && ((exists host :: !Unobserved(table, name, host)) || table[name].rewrite == Some(name))
  {
    if name in table {
      SectionUnobservableIff(table, name);
    }
  }

  // What a peer without a ruler, or without a section, is left with.
  lemma NoSectionNoChange(ruler: Option<Table>, host: Bytes)
    requires ruler.Some? ==> Hostname(host) !in ruler.value
    ensures var rule := RuleAfter(ruler, host, Unknown);
      && HostByRule(host, rule) == ValidHost(host) && BackendByRule(rule) == Balanced
      && (ruler.None? <==> rule.Unknown?)
  {
  }

  // Finding the rule twice is finding it once; and a peer without a rule, once
  // that is known, is not looked up again, in any table.
  lemma FindRuleIdempotent(table: Table, host: Bytes, rule: HostRules, other: Table)
    ensures RuleFor(table, host, RuleFor(table, host, rule)) == RuleFor(table, host, rule)
    ensures RuleFor(table, host, rule).NoRule? ==> RuleFor(other, host, RuleFor(table, host, rule)).NoRule?
  {
  }
}
