// One backend (client/src/backends.rs): its shared fields, and what each
// stretch of code between two awaits does to them.
module Backends {
  import opened Connector

  datatype Status = Normal | Closed | Unknown | ForceClosed
  datatype Protocol = HTTP2 | Quic

  // The fields that concurrent activities share. Tokens and clients are
  // numbered in the order of their creation; a client that is not in
  // `clients` has never been connected. Of the metric, `shown` is the protocol
  // that it was last told, and `metricResets` counts its resets.
  datatype Shared = Shared(
    status: Status,
    retrying: bool,
    token: nat,
    cancelled: set<nat>,
    client: nat,
    clients: map<nat, ClientState>,
    protocol: Protocol,
    shown: Protocol,
    metricResets: nat)
  {
    function ClientOf(c: nat): ClientState {
      if c in clients then clients[c] else NotConnected
    }

    function Current(): ClientState {
      ClientOf(client)
    }

    function Saw(c: nat, o: Obs): Shared {
      this.(clients := clients[c := Next(ClientOf(c), o)])
    }

    function WithStatus(st: Status): Shared {
      this.(status := st)
    }

    function Cancel(): Shared {
      this.(cancelled := cancelled + {token})
    }

    // Renewal clears the retrying flag with the token.
    function Renew(): Shared {
      this.(token := token + 1, retrying := false)
    }

    // The configured protocol has changed even when the client fails to build,
    // and then the metric is not told.
    function SwitchProtocol(built: bool): Shared {
      var b := this.(protocol := if protocol == HTTP2 then Quic else HTTP2);
      if !built then b
      else b.(client := client + 1, clients := clients[client + 1 := NotConnected], shown := b.protocol).Renew()
    }

    function ResetClient(): Shared {
      Saw(client, WasReset).(metricResets := metricResets + 1)
    }

    predicate RetryBegins() {
      status in {Closed, Unknown} && !retrying
    }

    function RetryEnd(ok: bool): Shared {
      this.(status := if ok then Normal else Closed, retrying := false)
    }

    // An administrator's status switch, having read whether it reopens.
    function Toggle(reopens: bool): Shared {
      WithStatus(if reopens then Unknown else ForceClosed)
    }
  }

  function NewShared(status: Status, protocol: Protocol): Shared {
    Shared(status, false, 0, {}, 0, map[], protocol, protocol, 0)
  }

  // The object behind the reader/writer lock. Its methods run without an
  // await; the awaits between them are steps of the machine in `Lifecycle`.
  class Backend {
    var status: Status
    var retrying: bool
    var token: nat
    var cancelled: set<nat>
    var client: nat
    var clients: map<nat, ClientState>
    var protocol: Protocol
    var shown: Protocol
    var metricResets: nat

    ghost function View(): Shared
      reads this
    {
      Shared(status, retrying, token, cancelled, client, clients, protocol, shown, metricResets)
    }

    constructor (configured: Status, protocol: Protocol)
      ensures View() == NewShared(configured, protocol)
    {
      status, retrying := configured, false;
      token, cancelled := 0, {};
      client, clients := 0, map[];
      this.protocol, shown, metricResets := protocol, protocol, 0;
    }

    method SetStatus(st: Status)
      modifies this`status
      ensures View() == old(View()).WithStatus(st)
    {
      status := st;
    }

    method Cancel()
      modifies this`cancelled
      ensures View() == old(View()).Cancel()
    {
      cancelled := cancelled + {token};
    }

    method RenewCancellationToken()
      modifies this`token, this`retrying
      ensures View() == old(View()).Renew()
    {
      token := token + 1;
      retrying := false;
    }

    // `switch_protocol`, up to the clearing of the new client.
    method SwitchProtocol(built: bool)
      modifies this`protocol, this`client, this`clients, this`token, this`retrying, this`shown
      ensures View() == old(View()).SwitchProtocol(built)
    {
      match protocol {
        case HTTP2 => protocol := Quic;
        case Quic => protocol := HTTP2;
      }
      if !built {
        return;
      }
      client := client + 1;
      clients := clients[client := NotConnected];
      RenewCancellationToken();
      shown := protocol;
    }

    method ResetClient()
      modifies this`clients, this`metricResets
      ensures View() == old(View()).ResetClient()
    {
      clients := clients[client := NotConnected];
      metricResets := metricResets + 1;
    }

    // The start of `retry_connect`, up to its first await.
    method RetryBegin() returns (go: bool)
      modifies this`retrying
      ensures go == old(View()).RetryBegins()
      ensures View() == old(View()).(retrying := go || old(retrying))
    {
      match status {
        case Normal => return false;
        case ForceClosed => return false;
        case Closed =>
        case Unknown =>
      }
      if retrying {
        return false;
      }
      retrying := true;
      return true;
    }

    // The end of `retry_connect`, after its connection attempt.
    method RetryFinish(ok: bool) returns (again: bool)
      modifies this`status, this`retrying
      ensures again == !ok
      ensures View() == old(View()).RetryEnd(ok)
    {
      if ok {
        SetStatus(Normal);
        retrying := false;
        again := false;
      } else {
        if status != Closed {
          SetStatus(Closed);
        }
        retrying := false;
        again := true;
      }
    }

    // The read, the decision and the write of an administrator's status switch.
    method Toggle() returns (reopened: bool)
      modifies this`status
      ensures reopened <==> old(status) == ForceClosed
      ensures View() == old(View()).Toggle(reopened)
    {
      match status {
        case ForceClosed =>
          SetStatus(Unknown);
          reopened := true;
        case _ =>
          SetStatus(ForceClosed);
          reopened := false;
      }
    }
  }
}
