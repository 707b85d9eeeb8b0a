// The CONNECT request (lib/src/proxy_client/tunnel.rs), and how a recipient
// reads it: section 9.3.6 of RFC 9110 and sections 2.2 and 3 of RFC 9112.
module ConnectRequest {
  import opened PeerInfo

  const LF: byte := 10
  const CR: byte := 13
  const SPACE: byte := 32

  function Ascii(s: string): (b: Bytes)
    requires forall i :: 0 <= i < |s| ==> s[i] < 128 as char
    ensures |b| == |s|
  {
    seq(|s|, i requires 0 <= i < |s| => s[i] as int as byte)
  }

  function Request(host: Bytes): (r: Bytes)
    ensures |r| > 0
  {
    Ascii("CONNECT ") + host + Ascii(" HTTP/1.1\r\nHost: ") + host + Ascii("\r\n\r\n")
  }

  function Until(b: Bytes, stops: set<byte>): (r: Bytes)
    ensures r <= b && forall x :: x in r ==> x !in stops
    ensures |r| < |b| ==> b[|r|] in stops
  {
    if b == [] || b[0] in stops then [] else [b[0]] + Until(b[1..], stops)
  }

  function From(b: Bytes, n: nat): Bytes {
    if n <= |b| then b[n..] else []
  }

  // A line ends at CRLF, at a bare LF, or at a bare CR.
  const LINE_ENDS: set<byte> := {CR, LF}

  function NextLine(b: Bytes): Bytes {
    var rest := From(b, |Until(b, LINE_ENDS)|);
    From(rest, if [CR, LF] <= rest then 2 else 1)
  }

  // The second word of the first line.
  function Target(request: Bytes): Bytes {
    var line := Until(request, LINE_ENDS);
    Until(From(line, |Until(line, {SPACE})| + 1), {SPACE})
  }

  // The first word of the first line, and what follows the second.
  function Method(request: Bytes): Bytes {
    Until(Until(request, LINE_ENDS), {SPACE})
  }

  function Version(request: Bytes): Bytes {
    var line := Until(request, LINE_ENDS);
    From(line, |Method(request)| + |Target(request)| + 2)
  }

  // The second line, after the name of its field.
  function HostField(request: Bytes): Bytes {
    From(Until(NextLine(request), LINE_ENDS), |Ascii("Host: ")|)
  }

  predicate Free(b: Bytes, stops: set<byte>) {
    forall x :: x in b ==> x !in stops
  }

  lemma {:induction false} UntilIs(a: Bytes, stops: set<byte>, stop: byte, rest: Bytes)
    requires Free(a, stops) && stop in stops
    ensures Until(a + [stop] + rest, stops) == a
  {
    if a == [] {
      assert (a + [stop] + rest)[0] == stop;
    } else {
      assert (a + [stop] + rest)[1..] == a[1..] + [stop] + rest;
      UntilIs(a[1..], stops, stop, rest);
    }
  }

  lemma SecondWord(first: Bytes, host: Bytes, rest: Bytes)
    requires SPACE !in first && SPACE !in host
    ensures var line := first + [SPACE] + host + [SPACE] + rest;
      Until(From(line, |Until(line, {SPACE})| + 1), {SPACE}) == host
  {
    var line := first + [SPACE] + host + [SPACE] + rest;
    assert line == first + [SPACE] + (host + [SPACE] + rest);
    UntilIs(first, {SPACE}, SPACE, host + [SPACE] + rest);
    assert From(line, |first| + 1) == host + [SPACE] + rest;
    UntilIs(host, {SPACE}, SPACE, rest);
  }

  lemma SecondLine(first: Bytes, second: Bytes, rest: Bytes)
    requires Free(first, LINE_ENDS) && Free(second, LINE_ENDS)
    ensures var r := first + [CR, LF] + second + [CR] + rest;
      Until(r, LINE_ENDS) == first && Until(NextLine(r), LINE_ENDS) == second
  {
    var r := first + [CR, LF] + second + [CR] + rest;
    assert r == first + [CR] + ([LF] + second + [CR] + rest);
    UntilIs(first, LINE_ENDS, CR, [LF] + second + [CR] + rest);
    assert From(r, |first|) == [CR, LF] + (second + [CR] + rest);
    assert NextLine(r) == second + [CR] + rest;
    UntilIs(second, LINE_ENDS, CR, rest);
  }

  function RequestLine(host: Bytes): Bytes {
    Ascii("CONNECT") + [SPACE] + host + [SPACE] + Ascii("HTTP/1.1")
  }

  lemma AsciiSplits(a: string, b: string)
    requires forall i :: 0 <= i < |a| ==> a[i] < 128 as char
    requires forall i :: 0 <= i < |b| ==> b[i] < 128 as char
    ensures Ascii(a + b) == Ascii(a) + Ascii(b)
  {
  }

  lemma RequestLines(host: Bytes)
    ensures Request(host) == RequestLine(host) + [CR, LF] + (Ascii("Host: ") + host) + [CR] + Ascii("\n\r\n")
  {
    MiddleSplits();
    AsciiSplits("CONNECT", " ");
    AsciiSplits("\r", "\n\r\n");
    assert "CONNECT " == "CONNECT" + " " && "\r\n\r\n" == "\r" + "\n\r\n";
    assert Ascii(" ") == [SPACE] && Ascii("\r") == [CR];
  }

  lemma MiddleSplits()
    ensures Ascii(" HTTP/1.1\r\nHost: ") == [SPACE] + Ascii("HTTP/1.1") + [CR, LF] + Ascii("Host: ")
  {
    AsciiSplits(" ", "HTTP/1.1\r\nHost: ");
    AsciiSplits("HTTP/1.1", "\r\nHost: ");
    AsciiSplits("\r\n", "Host: ");
    assert " HTTP/1.1\r\nHost: " == " " + "HTTP/1.1\r\nHost: ";
    assert "HTTP/1.1\r\nHost: " == "HTTP/1.1" + "\r\nHost: ";
    assert "\r\nHost: " == "\r\n" + "Host: ";
    assert Ascii(" ") == [SPACE] && Ascii("\r\n") == [CR, LF];
  }

  lemma TwoLines(connect: Bytes, version: Bytes, name: Bytes, rest: Bytes, host: Bytes)
    requires Free(connect, {SPACE, CR, LF}) && Free(version, LINE_ENDS) && Free(name, LINE_ENDS)
    requires Free(host, {SPACE, CR, LF})
    ensures var r := connect + [SPACE] + host + [SPACE] + version + [CR, LF] + (name + host) + [CR] + rest;
      Target(r) == host && Until(NextLine(r), LINE_ENDS) == name + host
  {
    var first := connect + [SPACE] + host + [SPACE] + version;
    assert Free(first, LINE_ENDS) && Free(name + host, LINE_ENDS);
    SecondLine(first, name + host, rest);
    SecondWord(connect, host, version);
  }

  lemma WordIsReadBack(host: Bytes)
    requires Free(host, {SPACE, CR, LF})
    ensures Target(Request(host)) == host == HostField(Request(host))
  {
    RequestLines(host);
    var name := Ascii("Host: ");
    TwoLines(Ascii("CONNECT"), Ascii("HTTP/1.1"), name, Ascii("\n\r\n"), host);
    assert From(name + host, |name|) == host;
  }

  // The request asks for its host in its target and again in its Host field.
  // A recipient reads the host in both exactly when it is one word on a line.
  lemma RequestNamesHost(host: Bytes)
    ensures Target(Request(host)) == host == HostField(Request(host)) <==> Free(host, {SPACE, CR, LF})
  {
    if Free(host, {SPACE, CR, LF}) {
      WordIsReadBack(host);
    }
  }

  lemma ThreeWords(first: Bytes, second: Bytes, third: Bytes)
    requires SPACE !in first && SPACE !in second
    ensures var line := first + [SPACE] + second + [SPACE] + third;
      Until(line, {SPACE}) == first && From(line, |first| + |second| + 2) == third
  {
    var line := first + [SPACE] + second + [SPACE] + third;
    assert line == first + [SPACE] + (second + [SPACE] + third);
    UntilIs(first, {SPACE}, SPACE, second + [SPACE] + third);
    assert line == (first + [SPACE] + second + [SPACE]) + third;
  }

  const CONNECT: Bytes := Ascii("CONNECT")
  const HTTP11: Bytes := Ascii("HTTP/1.1")
  const HOST: Bytes := Ascii("Host: ")

  // Such a request is a CONNECT of HTTP/1.1 with the one field Host, and ends
  // with its header.
  lemma RequestIsConnect(host: Bytes)
    requires Free(host, {SPACE, CR, LF})
    ensures var r := Request(host);
      && Method(r) == CONNECT && Version(r) == HTTP11
      && Until(NextLine(r), LINE_ENDS) == HOST + host && NextLine(NextLine(r)) == [CR, LF]
  {
    RequestLines(host);
    assert Ascii("\n\r\n") == [LF, CR, LF];
    IsOneHeader(CONNECT, host, HTTP11, HOST + host);
  }

  lemma IsOneHeader(first: Bytes, second: Bytes, third: Bytes, field: Bytes)
    requires Free(first, {SPACE, CR, LF}) && Free(second, {SPACE, CR, LF}) && Free(third, LINE_ENDS)
    requires Free(field, LINE_ENDS)
    ensures var r := first + [SPACE] + second + [SPACE] + third + [CR, LF] + field + [CR] + [LF, CR, LF];
      && Method(r) == first && Version(r) == third
      && Until(NextLine(r), LINE_ENDS) == field && NextLine(NextLine(r)) == [CR, LF]
  {
    var line := first + [SPACE] + second + [SPACE] + third;
    FreeLine(first, second, third);
    SecondLine(line, field, [LF, CR, LF]);
    ThreeWords(first, second, third);
    SecondWord(first, second, third);
    WordsOf(line + [CR, LF] + field + [CR] + [LF, CR, LF], line, first, second, third);
    LastLine(line, field);
  }

  lemma FreeLine(first: Bytes, second: Bytes, third: Bytes)
    requires Free(first, {SPACE, CR, LF}) && Free(second, {SPACE, CR, LF}) && Free(third, LINE_ENDS)
    ensures Free(first + [SPACE] + second + [SPACE] + third, LINE_ENDS)
  {
  }

  lemma {:induction false} WordsOf(request: Bytes, line: Bytes, first: Bytes, second: Bytes, third: Bytes)
    requires Until(request, LINE_ENDS) == line && Until(line, {SPACE}) == first
    requires Until(From(line, |first| + 1), {SPACE}) == second && From(line, |first| + |second| + 2) == third
    ensures Method(request) == first && Target(request) == second && Version(request) == third
  {
  }

  lemma LastLine(first: Bytes, second: Bytes)
    requires Free(first, LINE_ENDS) && Free(second, LINE_ENDS)
    ensures NextLine(NextLine(first + [CR, LF] + second + [CR] + [LF, CR, LF])) == [CR, LF]
  {
    var rest := [LF, CR, LF];
    var r := first + [CR, LF] + second + [CR] + rest;
    SecondLine(first, second, rest);
    assert From(r, |first|) == [CR, LF] + (second + [CR] + rest);
    assert NextLine(r) == second + [CR] + rest;
    assert From(NextLine(r), |second|) == [CR] + rest;
  }
}
