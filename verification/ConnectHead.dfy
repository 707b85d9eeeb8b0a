// The length-prefixed head of a proxied stream (lib/src/proxy.rs): a big-endian
// u16 and that many bytes of host.
module ConnectHead {
  import opened PeerInfo

  // The low 16 bits of a length.
  function U16(n: nat): Bytes {
    [(n / 256 % 256) as byte, (n % 256) as byte]
  }

  function Frame(host: Bytes): Bytes {
    U16(|host|) + host
  }

  method NewConnectHeadBuf(host: Bytes) returns (buf: Bytes)
    ensures buf == Frame(host) && AsStr(buf) == host
    ensures |buf| == |host| + 2 && buf[0] as int * 256 + buf[1] as int == |host| % 0x1_0000
  {
    buf := [];
    buf := buf + U16(|host|);
    buf := buf + host;
  }

  // The host of a frame, as the sender reads it back.
  function AsStr(buf: Bytes): Bytes
    requires |buf| >= 2
  {
    buf[2..]
  }

  function Length(stream: Bytes): nat
    requires |stream| >= 2
  {
    stream[0] as int * 256 + stream[1] as int
  }

  // The room for the one read of the host: what was announced, or the 64
  // bytes that an empty buffer grows by.
  function Room(length: nat): nat {
    if length == 0 then 64 else length
  }

  // The read can deliver k bytes.
  predicate CanDeliver(stream: Bytes, k: nat) {
    |stream| >= 2 && k <= Room(Length(stream)) && k <= |stream| - 2
  }

  datatype Tunnelled = Tunnelled(url: Bytes, payload: Bytes)

  // What the server connects to and what it passes on, when the one read
  // delivers k bytes.
  method ReadHead(stream: Bytes, k: nat) returns (r: Tunnelled)
    requires CanDeliver(stream, k)
    ensures r == Decoded(stream, k)
  {
    var rest := stream[2..];
    var buf: Bytes := [];
    buf := buf + rest[..k];
    return Tunnelled(buf, rest[k..]);
  }

  function Decoded(stream: Bytes, k: nat): Tunnelled
    requires CanDeliver(stream, k)
  {
    Tunnelled(stream[2..2 + k], stream[2 + k..])
  }

  lemma FrameLength(host: Bytes, payload: Bytes)
    ensures Length(Frame(host) + payload) == |host| % 0x1_0000
  {
    var n := |host|;
    assert n % 0x1_0000 == (n / 256 % 256) * 256 + n % 256;
  }

  // The server gets the host and leaves the payload exactly when the read
  // delivers the whole host, and that is possible exactly when the length fits.
  lemma HeadRoundTrip(host: Bytes, payload: Bytes, k: nat)
    ensures CanDeliver(Frame(host) + payload, |host|) <==> |host| <= 0xFFFF
    ensures CanDeliver(Frame(host) + payload, k) ==>
      (Decoded(Frame(host) + payload, k) == Tunnelled(host, payload) <==> k == |host|)
  {
    var stream := Frame(host) + payload;
    FrameLength(host, payload);
    if CanDeliver(stream, k) {
      assert |Decoded(stream, k).url| == k;
      if k == |host| {
        assert stream[2..2 + k] == host && stream[2 + k..] == payload;
      }
    }
  }

  // After an empty host the read takes up to 64 bytes of the payload for it.
  lemma EmptyHostTakesPayload(payload: Bytes, k: nat)
    ensures CanDeliver(Frame([]) + payload, k) <==> k <= 64 && k <= |payload|
    ensures CanDeliver(Frame([]) + payload, k) ==>
      Decoded(Frame([]) + payload, k) == Tunnelled(payload[..k], payload[k..])
  {
    FrameLength([], payload);
  }

  // The host that a peer's rule asks for reaches the server whole, and there
  // parses as the rewrite, or as the peer's own name, with the peer's port.
  lemma RequestedHostArrives(host: Bytes, rule: HostRules, payload: Bytes)
    requires |HostByRule(host, rule)| <= 0xFFFF
    ensures var asked := HostByRule(host, rule);
      && asked == Hostname(asked) + [COLON] + PortStr(asked)
      && CanDeliver(Frame(asked) + payload, |asked|)
      && Decoded(Frame(asked) + payload, |asked|) == Tunnelled(asked, payload)
      && PortStr(asked) == PortStr(host)
      && Hostname(asked) == if rule.GotRule? && rule.section.rewrite.Some? then rule.section.rewrite.value
        else Hostname(host)
  {
    HeadRoundTrip(HostByRule(host, rule), payload, |HostByRule(host, rule)|);
    if rule.GotRule? && rule.section.rewrite.Some? {
      RewriteRoundTrip(host, rule);
    } else {
      ValidHostRoundTrip(host);
    }
  }
}
