// The CONNECT handshake with an upstream proxy (lib/src/proxy_client/tunnel.rs),
// resumable at every partial write and read. CONNECT is section 9.3.6 of RFC
// 9110; its authority-form target is section 3.2.3 of RFC 9112.
module Tunnel {
  import opened Wrappers
  import opened PeerInfo
  import opened ConnectRequest

  predicate Is200(read: Bytes) {
    Ascii("HTTP/1.1 200") <= read || Ascii("HTTP/1.0 200") <= read
  }

  predicate EndsHeader(read: Bytes) {
    |read| >= 4 && read[|read| - 4..] == Ascii("\r\n\r\n")
  }

  // How the stream answers one poll of a write or a read: not now, at most n
  // bytes, or a failure.
  datatype Io = Pending | Progress(n: nat) | Failure

  datatype Outcome = Opened | IoError | WriteEof | ReadEof | Unsuccessful(start: Bytes)

  datatype TunnelState = Writing | Reading

  // The handshake and its stream: what was written, and how much of the reply
  // was read.
  datatype Progressed = Progressed(buf: Bytes, state: TunnelState, written: Bytes, pos: nat, outcome: Option<Outcome>)

  function Start(host: Bytes): Progressed {
    Progressed(Request(host), Writing, [], 0, None)
  }

  function Min(a: nat, b: nat): nat {
    if a < b then a else b
  }

  // What the bytes read so far decide.
  function Verdict(read: Bytes): Option<Outcome> {
    if |read| <= 12 then None
    else if !Is200(read) then Some(Unsuccessful(read[..Min(16, |read|)]))
    else if EndsHeader(read) then Some(Opened)
    else None
  }

  function AfterIo(t: Progressed, reply: Bytes, io: Io): Progressed {
    if t.outcome.Some? || io.Pending? then t
    else if io.Failure? then t.(outcome := Some(IoError))
    else if t.state == Writing then
      var m := Min(io.n, |t.buf|);
      var w := t.(buf := t.buf[m..], written := t.written + t.buf[..m]);
      if w.buf == [] then w.(state := Reading) else if m == 0 then w.(outcome := Some(WriteEof)) else w
    else
      var m := Min(io.n, if t.pos < |reply| then |reply| - t.pos else 0);
      if m == 0 then t.(outcome := Some(ReadEof))
      else
        var read := t.buf + reply[t.pos..t.pos + m];
        t.(buf := read, pos := t.pos + m, outcome := Verdict(read))
  }

  // The handshake after a schedule of answers, over any number of polls.
  function After(t: Progressed, reply: Bytes, ios: seq<Io>): Progressed {
    if ios == [] then t else AfterIo(After(t, reply, ios[..|ios| - 1]), reply, ios[|ios| - 1])
  }

  lemma {:induction false} AfterAppends(t: Progressed, reply: Bytes, a: seq<Io>, b: seq<Io>)
    ensures After(t, reply, a + b) == After(After(t, reply, a), reply, b)
  {
    if b == [] {
      assert a + b == a;
    } else {
      assert (a + b)[..|a + b| - 1] == a + b[..|b| - 1];
      AfterAppends(t, reply, a, b[..|b| - 1]);
    }
  }

  lemma {:induction false} AfterNext(t: Progressed, reply: Bytes, ios: seq<Io>, k: nat)
    requires k < |ios|
    ensures After(t, reply, ios[..k + 1]) == AfterIo(After(t, reply, ios[..k]), reply, ios[k])
  {
    assert ios[..k + 1][..k] == ios[..k];
  }

  // How many answers come before the first "not now".
  function FirstPending(ios: seq<Io>): (k: nat)
    ensures k <= |ios| && (k < |ios| ==> ios[k].Pending?) && forall i :: 0 <= i < k ==> !ios[i].Pending?
  {
    if ios == [] || ios[0].Pending? then 0 else 1 + FirstPending(ios[1..])
  }

  class Tunnel {
    const reply: Bytes         // what the stream delivers when it is read
    var written: Bytes         // what the stream has accepted
    var pos: nat
    var buf: Bytes
    var state: TunnelState
    var outcome: Option<Outcome>

    ghost function View(): Progressed
      reads this
    {
      Progressed(buf, state, written, pos, outcome)
    }

    constructor (host: Bytes, reply: Bytes)
      ensures this.reply == reply && View() == Start(host)
    {
      this.reply := reply;
      written, pos := [], 0;
      buf, state, outcome := Request(host), Writing, None;
    }

    // A write that the stream takes at most `most` bytes of.
    method Write(most: nat)
      requires outcome.None? && state == Writing
      modifies this
      ensures View() == AfterIo(old(View()), reply, Progress(most))
    {
      var n := if most < |buf| then most else |buf|;
      written := written + buf[..n];
      buf := buf[n..];
      if buf == [] {
        state := Reading;
      } else if n == 0 {
        outcome := Some(WriteEof);
      }
    }

    // A read that the stream delivers at most `most` bytes to.
    method Read(most: nat)
      requires outcome.None? && state == Reading
      modifies this
      ensures View() == AfterIo(old(View()), reply, Progress(most))
    {
      var left := if pos < |reply| then |reply| - pos else 0;
      var n := if most < left then most else left;
      if n == 0 {
        outcome := Some(ReadEof);
        return;
      }
      buf := buf + reply[pos..pos + n];
      pos := pos + n;
      outcome := Verdict(buf);
    }

    // One answer of the stream that is not "not now".
    method Answered(io: Io)
      requires outcome.None? && !io.Pending?
      modifies this
      ensures View() == AfterIo(old(View()), reply, io)
    {
      match io {
        case Failure =>
          outcome := Some(IoError);
        case Progress(most) =>
          if state == Writing {
            Write(most);
          } else {
            Read(most);
          }
      }
    }

    // Poll until the stream has nothing for us, or the handshake is over. The
    // stream answers the polls of writes and reads with `ios`, in turn.
    method Poll(ios: seq<Io>) returns (used: nat)
      requires outcome.None?
      modifies this
      ensures used <= |ios| && View() == After(old(View()), reply, ios[..used])
      ensures outcome.Some? || used == |ios| || (used > 0 && ios[used - 1] == Pending)
      ensures used <= FirstPending(ios) + 1
    {
      used := 0;
      ghost var start := View();
      while used < |ios| && outcome.None?
        invariant used <= |ios|
        invariant View() == After(start, reply, ios[..used])
        invariant used <= FirstPending(ios)
      {
        AfterNext(start, reply, ios, used);
        if ios[used].Pending? {
          return used + 1;
        }
        Answered(ios[used]);
        used := used + 1;
      }
    }
  }

  // ----- What holds for every schedule -----

  ghost predicate Inv(host: Bytes, reply: Bytes, t: Progressed) {
    && t.pos <= |reply|
    && (t.state == Writing ==> t.written + t.buf == Request(host) && t.buf != [] && t.pos == 0)
    && (t.state == Reading ==> t.written == Request(host) && t.buf == reply[..t.pos])
    && (t.outcome in {Some(Opened), Some(ReadEof)} ==> t.state == Reading)
    && (t.outcome.Some? && t.outcome.value.Unsuccessful? ==> t.state == Reading && t.outcome == Verdict(t.buf))
    && (t.outcome == Some(Opened) ==> t.outcome == Verdict(t.buf))
    && (t.outcome in {None, Some(IoError), Some(ReadEof)} && t.state == Reading ==> Verdict(t.buf) == None)
    && (t.outcome == Some(WriteEof) ==> t.state == Writing)
  }

  lemma InvIo(host: Bytes, reply: Bytes, t: Progressed, io: Io)
    requires Inv(host, reply, t)
    ensures Inv(host, reply, AfterIo(t, reply, io))
  {
    if t.outcome.None? && io.Progress? {
      if t.state == Writing {
        var m := Min(io.n, |t.buf|);
        assert t.written + t.buf[..m] + t.buf[m..] == t.written + t.buf;
      } else {
        var m := Min(io.n, |reply| - t.pos);
        assert reply[..t.pos] + reply[t.pos..t.pos + m] == reply[..t.pos + m];
      }
    }
  }

  lemma {:induction false} InvAfter(host: Bytes, reply: Bytes, ios: seq<Io>)
    ensures Inv(host, reply, After(Start(host), reply, ios))
  {
    if ios != [] {
      InvAfter(host, reply, ios[..|ios| - 1]);
      InvIo(host, reply, After(Start(host), reply, ios[..|ios| - 1]), ios[|ios| - 1]);
    }
  }

  // The request is written once: never more than it, all of it before the
  // first read, and nothing after.
  lemma {:induction false} RequestWrittenOnce(host: Bytes, reply: Bytes, ios: seq<Io>)
    ensures var t := After(Start(host), reply, ios);
      t.written <= Request(host) && (t.state == Reading || t.pos > 0 ==> t.written == Request(host))
  {
    InvAfter(host, reply, ios);
  }

  // The reply is rejected exactly when more than 12 bytes have arrived and the
  // first 12 are not a 200 status, whatever comes after them. It is reported
  // by its first 16 bytes, or what there is.
  lemma {:induction false} RejectedByFirst12(host: Bytes, reply: Bytes, ios: seq<Io>)
    ensures var t := After(Start(host), reply, ios);
      t.pos <= |reply| &&
      (t.outcome.Some? && t.outcome.value.Unsuccessful? <==>
        t.pos > 12 && reply[..12] !in {Ascii("HTTP/1.1 200"), Ascii("HTTP/1.0 200")}) &&
      (t.outcome.Some? && t.outcome.value.Unsuccessful? ==>
        var start := t.outcome.value.start; start <= reply && (|start| == 16 || |start| == t.pos < 16))
  {
    InvAfter(host, reply, ios);
    var t := After(Start(host), reply, ios);
    if t.pos > 12 {
      First12(reply, t.pos);
      Is200At12(reply[..12]);
    }
  }

  lemma Is200At12(read: Bytes)
    requires |read| == 12
    ensures Is200(read) <==> read in {Ascii("HTTP/1.1 200"), Ascii("HTTP/1.0 200")}
  {
    IsPrefixOfSame(Ascii("HTTP/1.1 200"), read);
    IsPrefixOfSame(Ascii("HTTP/1.0 200"), read);
  }

  lemma IsPrefixOfSame(a: Bytes, b: Bytes)
    requires |a| == |b|
    ensures a <= b <==> a == b
  {
    assert b[..|a|] == b;
  }

  lemma First12(reply: Bytes, pos: nat)
    requires 12 < pos <= |reply|
    ensures Is200(reply[..pos]) <==> Is200(reply[..12])
  {
    assert reply[..pos][..12] == reply[..12];
  }

  // Once it is over, nothing more is written or read.
  lemma {:induction false} OverStays(t: Progressed, reply: Bytes, ios: seq<Io>, more: seq<Io>)
    requires After(t, reply, ios).outcome.Some?
    ensures After(t, reply, ios + more) == After(t, reply, ios)
  {
    if more == [] {
      assert ios + more == ios;
    } else {
      assert (ios + more)[..|ios + more| - 1] == ios + more[..|more| - 1];
      OverStays(t, reply, ios, more[..|more| - 1]);
    }
  }

  // Answer k finds the handshake undecided and ends it with an error: the
  // stream fails, takes nothing, or has nothing more to deliver.
  ghost predicate Fails(host: Bytes, reply: Bytes, ios: seq<Io>, k: nat, error: Outcome) {
    k < |ios| && var t := After(Start(host), reply, ios[..k]);
    t.outcome == None && match error
      case IoError => ios[k] == Failure
      case WriteEof => t.state == Writing && ios[k] == Progress(0)
      case ReadEof => t.state == Reading && ios[k].Progress? && (ios[k].n == 0 || t.pos == |reply|)
      case _ => false
  }

  lemma {:induction false} FailsStill(host: Bytes, reply: Bytes, ios: seq<Io>, k: nat, error: Outcome)
    requires ios != [] && k < |ios| - 1
    ensures Fails(host, reply, ios, k, error) <==> Fails(host, reply, ios[..|ios| - 1], k, error)
  {
    assert ios[..|ios| - 1][..k] == ios[..k];
  }

  lemma {:induction false} FailsNow(host: Bytes, reply: Bytes, ios: seq<Io>, error: Outcome)
    requires ios != [] && error in {IoError, WriteEof, ReadEof}
    requires After(Start(host), reply, ios[..|ios| - 1]).outcome == None
    ensures After(Start(host), reply, ios).outcome == Some(error) <==> Fails(host, reply, ios, |ios| - 1, error)
  {
    InvAfter(host, reply, ios[..|ios| - 1]);
  }

  // It ends with such an error if and only if one of the answers is its cause.
  lemma {:induction false} ErrorIffCaused(host: Bytes, reply: Bytes, ios: seq<Io>, error: Outcome)
    requires error in {IoError, WriteEof, ReadEof}
    ensures After(Start(host), reply, ios).outcome == Some(error) <==>
      exists k: nat :: Fails(host, reply, ios, k, error)
  {
    if ios != [] {
      var n := |ios| - 1;
      ErrorIffCaused(host, reply, ios[..n], error);
      if After(Start(host), reply, ios[..n]).outcome == None {
        FailsNow(host, reply, ios, error);
      }
      if k: nat :| Fails(host, reply, ios[..n], k, error) {
        FailsStill(host, reply, ios, k, error);
      }
      if k: nat :| k < n && Fails(host, reply, ios, k, error) {
        FailsStill(host, reply, ios, k, error);
      }
    }
  }

  // A success has consumed a 200 header block.
  lemma {:induction false} OpenedAfterHeader(host: Bytes, reply: Bytes, ios: seq<Io>)
    requires After(Start(host), reply, ios).outcome == Some(Opened)
    ensures var t := After(Start(host), reply, ios);
      t.pos <= |reply| && Is200(reply[..t.pos]) && EndsHeader(reply[..t.pos]) && t.written == Request(host)
  {
    InvAfter(host, reply, ios);
  }

  // A 200 header block whose only end is its end.
  predicate GoodReply(reply: Bytes) {
    Is200(reply) && EndsHeader(reply) && forall i :: 0 <= i < |reply| ==> !EndsHeader(reply[..i])
  }

  // The stream never fails, and makes some progress when it makes any.
  predicate Lively(ios: seq<Io>) {
    forall i :: 0 <= i < |ios| ==> ios[i] == Pending || (ios[i].Progress? && ios[i].n > 0)
  }

  function ProgressCount(ios: seq<Io>): nat {
    if ios == [] then 0
    else ProgressCount(ios[..|ios| - 1]) + if ios[|ios| - 1].Progress? then 1 else 0
  }

  // The bytes that are still to be written and read.
  function Left(reply: Bytes, t: Progressed): int {
    (if t.state == Writing then |t.buf| else 0) + |reply| - t.pos
  }

  lemma GoodReplyLong(reply: Bytes)
    requires GoodReply(reply)
    ensures |reply| > 12
  {
    var cr := Ascii("\r\n\r\n")[0];
    assert reply[|reply| - 4..][0] == cr == 13;
    assert Ascii("HTTP/1.1 200")[11] == 48 == Ascii("HTTP/1.0 200")[11];
    assert Ascii("HTTP/1.1 200")[10] == 48 == Ascii("HTTP/1.0 200")[10];
    assert Ascii("HTTP/1.1 200")[9] == 50 == Ascii("HTTP/1.0 200")[9];
    assert Ascii("HTTP/1.1 200")[8] == 32 == Ascii("HTTP/1.0 200")[8];
  }

  ghost predicate Underway(host: Bytes, reply: Bytes, t: Progressed) {
    && Inv(host, reply, t)
    && (t.outcome == None ==> t.pos < |reply|)
    && (t.outcome.Some? ==> t.outcome == Some(Opened) && t.pos == |reply|)
  }

  lemma GoodVerdict(reply: Bytes, p: nat)
    requires GoodReply(reply) && p <= |reply|
    ensures Verdict(reply[..p]) == if p == |reply| then Some(Opened) else None
  {
    GoodReplyLong(reply);
    assert reply[..|reply|] == reply;
    if p > 12 {
      First12(reply, p);
      First12(reply, |reply|);
    }
  }

  lemma UnderwayIo(host: Bytes, reply: Bytes, t: Progressed, io: Io)
    requires GoodReply(reply) && Underway(host, reply, t)
    requires io == Pending || (io.Progress? && io.n > 0)
    ensures var t' := AfterIo(t, reply, io);
      Underway(host, reply, t') && Left(reply, t') <= Left(reply, t) &&
      (t.outcome == None && io.Progress? ==> Left(reply, t') < Left(reply, t))
  {
    InvIo(host, reply, t, io);
    if t.outcome.None? && io.Progress? && t.state == Reading {
      var p := t.pos + Min(io.n, |reply| - t.pos);
      assert reply[..t.pos] + reply[t.pos..p] == reply[..p];
      GoodVerdict(reply, p);
    }
    GoodReplyLong(reply);
  }

  // However the request and a good reply are split, the handshake finishes
  // having consumed exactly the reply, as soon as the stream has made enough
  // progress; before that it is undecided.
  lemma {:induction false} GoodReplyOpens(host: Bytes, reply: Bytes, ios: seq<Io>)
    requires GoodReply(reply) && Lively(ios)
    ensures var t := After(Start(host), reply, ios);
      && Underway(host, reply, t)
      && (t.outcome == None ==> ProgressCount(ios) + Left(reply, t) <= |Request(host)| + |reply|)
      && (ProgressCount(ios) >= |Request(host)| + |reply| ==> t.outcome == Some(Opened) && t.pos == |reply|)
  {
    InvAfter(host, reply, ios);
    if ios == [] {
      GoodReplyLong(reply);
    } else {
      var before, io := ios[..|ios| - 1], ios[|ios| - 1];
      GoodReplyOpens(host, reply, before);
      UnderwayIo(host, reply, After(Start(host), reply, before), io);
    }
  }

  // No part of the reply decides.
  predicate NeverDecides(reply: Bytes) {
    forall i :: 0 <= i <= |reply| ==> Verdict(reply[..i]) == None
  }

  ghost predicate Starving(host: Bytes, reply: Bytes, t: Progressed) {
    Inv(host, reply, t) && t.outcome in {None, Some(ReadEof)}
  }

  lemma StarvingIo(host: Bytes, reply: Bytes, t: Progressed, io: Io)
    requires NeverDecides(reply) && Starving(host, reply, t)
    requires io == Pending || (io.Progress? && io.n > 0)
    ensures var t' := AfterIo(t, reply, io);
      Starving(host, reply, t') && Left(reply, t') <= Left(reply, t) &&
      (t'.outcome == None && io.Progress? ==> Left(reply, t') < Left(reply, t))
  {
    InvIo(host, reply, t, io);
    if t.outcome.None? && io.Progress? && t.state == Reading {
      var p := t.pos + Min(io.n, |reply| - t.pos);
      assert reply[..t.pos] + reply[t.pos..p] == reply[..p];
    }
  }

  // A stream that ends before the reply decides is reported as that, however
  // the reply is split, and is never taken for a tunnel.
  lemma {:induction false} CutShortIsEof(host: Bytes, reply: Bytes, ios: seq<Io>)
    requires NeverDecides(reply) && Lively(ios)
    ensures var t := After(Start(host), reply, ios);
      && Starving(host, reply, t)
      && (t.outcome == None ==> ProgressCount(ios) + Left(reply, t) <= |Request(host)| + |reply|)
      && (ProgressCount(ios) > |Request(host)| + |reply| ==> t.outcome == Some(ReadEof))
  {
    InvAfter(host, reply, ios);
    if ios != [] {
      var before, io := ios[..|ios| - 1], ios[|ios| - 1];
      CutShortIsEof(host, reply, before);
      StarvingIo(host, reply, After(Start(host), reply, before), io);
    }
  }

  // ----- Good replies -----

  // A status line of either version, with any reason on it and no header fields.
  lemma EstablishedIsGood(status: Bytes, reason: Bytes)
    requires status in {Ascii("HTTP/1.1 200"), Ascii("HTTP/1.0 200")} && LF !in reason
    ensures GoodReply(status + reason + [CR, LF, CR, LF])
  {
    var reply := status + reason + [CR, LF, CR, LF];
    assert Ascii("\r\n\r\n") == [CR, LF, CR, LF];
    assert reply[..12] == status;
    assert LF !in status;
    forall i | 0 <= i < |reply|
      ensures !EndsHeader(reply[..i])
    {
      if i >= 4 {
        assert reply[..i][i - 4..][1] == reply[i - 3] != LF;
      }
    }
  }

  // ----- Only good replies open however they are split -----

  function OneByOne(n: nat): seq<Io> {
    seq(n, _ => Progress(1))
  }

  lemma {:induction false} OneMore(host: Bytes, reply: Bytes, n: nat)
    ensures After(Start(host), reply, OneByOne(n + 1)) ==
      AfterIo(After(Start(host), reply, OneByOne(n)), reply, Progress(1))
  {
    assert OneByOne(n + 1)[..n] == OneByOne(n);
  }

  lemma EndCounts(host: Bytes, reply: Bytes, t: Progressed)
    requires Inv(host, reply, t) && t.state == Reading && t.pos == |reply|
    ensures var t' := AfterIo(t, reply, Progress(1)); |t'.written| == |t.written| && t'.pos == t.pos && t'.outcome.Some?
  {
  }

  // So far n bytes have gone, or the handshake is decided.
  ghost predicate Counted(t: Progressed, n: nat) {
    |t.written| + t.pos <= n && (t.outcome == None ==> |t.written| + t.pos == n)
  }

  lemma CountedNext(host: Bytes, reply: Bytes, t: Progressed, n: nat)
    requires Inv(host, reply, t) && Counted(t, n)
    ensures Counted(AfterIo(t, reply, Progress(1)), n + 1)
  {
    if t.state == Reading && t.pos == |reply| {
      EndCounts(host, reply, t);
    }
  }

  // While it is undecided, each byte is written or read in its turn.
  lemma {:induction false} OneByOneCounts(host: Bytes, reply: Bytes, n: nat)
    ensures Counted(After(Start(host), reply, OneByOne(n)), n)
  {
    if n > 0 {
      OneByOneCounts(host, reply, n - 1);
      OneMore(host, reply, n - 1);
      InvAfter(host, reply, OneByOne(n - 1));
      CountedNext(host, reply, After(Start(host), reply, OneByOne(n - 1)), n - 1);
    }
  }

  lemma {:induction false} DecidedStays(host: Bytes, reply: Bytes, n: nat, m: nat)
    requires n <= m && After(Start(host), reply, OneByOne(n)).outcome.Some?
    ensures After(Start(host), reply, OneByOne(m)) == After(Start(host), reply, OneByOne(n))
  {
    assert OneByOne(m) == OneByOne(n) + OneByOne(m - n);
    OverStays(Start(host), reply, OneByOne(n), OneByOne(m - n));
  }

  lemma {:induction false} OnesProgress(n: nat)
    ensures Lively(OneByOne(n)) && ProgressCount(OneByOne(n)) == n
  {
    if n > 0 {
      OnesProgress(n - 1);
      assert OneByOne(n)[..n - 1] == OneByOne(n - 1);
    }
  }

  lemma EarlyEndOpens(reply: Bytes, i: nat)
    requires Is200(reply) && 12 < i <= |reply| && EndsHeader(reply[..i])
    ensures Verdict(reply[..i]) == Some(Opened)
  {
    First12(reply, i);
    First12(reply, |reply|);
    assert reply[..|reply|] == reply;
  }

  lemma DecidedBy(host: Bytes, reply: Bytes, t: Progressed, i: nat)
    requires Inv(host, reply, t) && i <= |reply| && Verdict(reply[..i]) != None
    requires |t.written| + t.pos <= |Request(host)| + i
    requires t.outcome == None ==> |t.written| + t.pos == |Request(host)| + i
    ensures t.outcome.Some? && t.pos <= i
  {
    if t.state == Writing {
      assert |t.written| + |t.buf| == |Request(host)|;
    }
  }

  lemma {:induction false} DecidedAt(host: Bytes, reply: Bytes, n: nat, i: nat)
    requires n == |Request(host)| + i && i <= |reply| && Verdict(reply[..i]) != None
    ensures var t := After(Start(host), reply, OneByOne(n)); t.outcome.Some? && t.pos <= i
  {
    OneByOneCounts(host, reply, n);
    InvAfter(host, reply, OneByOne(n));
    DecidedBy(host, reply, After(Start(host), reply, OneByOne(n)), i);
  }

  // A header that ends early is taken for the whole reply when it arrives a
  // byte at a time.
  lemma {:induction false} EarlyEndCutsShort(host: Bytes, reply: Bytes, i: nat, all: nat)
    requires i < |reply| && Verdict(reply[..i]) != None && all == |Request(host)| + |reply|
    ensures After(Start(host), reply, OneByOne(all)).pos < |reply|
  {
    var n := all - |reply| + i;
    DecidedAt(host, reply, n, i);
    DecidedStays(host, reply, n, all);
  }

  // The first 12 bytes of a 200 reply do not end a header.
  lemma StatusEndsNoHeader(reply: Bytes, i: nat)
    requires Is200(reply) && i <= 12 && i <= |reply|
    ensures !EndsHeader(reply[..i])
  {
    if i >= 4 {
      assert forall j :: 0 <= j < 12 ==> Ascii("HTTP/1.1 200")[j] != 10 && Ascii("HTTP/1.0 200")[j] != 10;
      assert reply[..i][i - 4..][1] == reply[i - 3] != 10 == Ascii("\r\n\r\n")[1];
    }
  }

  // The schedules with as many productive answers as there are bytes.
  predicate Suffices(host: Bytes, reply: Bytes, ios: seq<Io>) {
    Lively(ios) && ProgressCount(ios) >= |Request(host)| + |reply|
  }

  predicate OpensWhole(host: Bytes, reply: Bytes, ios: seq<Io>) {
    var t := After(Start(host), reply, ios);
    t.outcome == Some(Opened) && t.pos == |reply|
  }

  // A reply opens the tunnel and is consumed exactly, however it is split, if
  // and only if it is a 200 header block whose only end is its end.
  lemma OpensIffGoodReply(host: Bytes, reply: Bytes)
    ensures GoodReply(reply) <==> forall ios :: Suffices(host, reply, ios) ==> OpensWhole(host, reply, ios)
  {
    if GoodReply(reply) {
      forall ios | Suffices(host, reply, ios)
        ensures OpensWhole(host, reply, ios)
      {
        GoodReplyOpens(host, reply, ios);
      }
    } else if forall ios :: Suffices(host, reply, ios) ==> OpensWhole(host, reply, ios) {
      var ones := OneByOne(|Request(host)| + |reply|);
      OnesProgress(|ones|);
      assert Suffices(host, reply, ones);
      OpenedAfterHeader(host, reply, ones);
      assert reply[..|reply|] == reply;
      var i :| 0 <= i < |reply| && EndsHeader(reply[..i]);
      if i <= 12 {
        StatusEndsNoHeader(reply, i);
      } else {
        EarlyEndOpens(reply, i);
        EarlyEndCutsShort(host, reply, i, |ones|);
      }
    }
  }
}
