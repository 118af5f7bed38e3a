/**
 * The front proxy index.php: it forwards each request to the application
 * server on 127.0.0.1:3000 and relays the answer, filtering headers both
 * ways. The upstream exchange (curl) is an input: either an error, or the
 * raw response with its status code and header size.
 */
module Proxy {
  import opened Js
  import opened Text

  const Upstream: string := "http://127.0.0.1:3000"

  /** `'http://127.0.0.1:3000' . $requestUri` */
  function TargetUrl(requestUri: string): (url: string)
    ensures StartsWith(url, Upstream)
    ensures url[|Upstream|..] == requestUri
  {
    Upstream + requestUri
  }

  /** The target URL determines the request URI: nothing is rewritten or lost. */
  lemma {:induction false} TargetUrlInjective(a: string, b: string)
    requires TargetUrl(a) == TargetUrl(b)
    ensures a == b
  {
    assert a == TargetUrl(a)[|Upstream|..];
  }

  /** `in_array($method, ['POST', 'PUT', 'PATCH'])` */
  predicate ForwardsBody(verb: string) {
    verb == "POST" || verb == "PUT" || verb == "PATCH"
  }

  /** One incoming header as `getallheaders()` lists it. */
  datatype Header = Header(key: string, value: string)

  function HeaderLine(h: Header): string {
    h.key + ": " + h.value
  }

  predicate IsHost(h: Header) {
    Lower(h.key) == "host"
  }

  /** The header lines handed to curl: every incoming header but Host, as "key: value", in order. */
  function Forwarded(incoming: seq<Header>): (lines: seq<string>)
    ensures |lines| <= |incoming|
  {
    if incoming == [] then []
    else Forwarded(incoming[..|incoming| - 1])
         + (if IsHost(incoming[|incoming| - 1]) then [] else [HeaderLine(incoming[|incoming| - 1])])
  }

  lemma {:induction false} ForwardedDistributes(a: seq<Header>, b: seq<Header>)
    ensures Forwarded(a + b) == Forwarded(a) + Forwarded(b)
    decreases |b|
  {
    if b == [] {
      assert a + b == a;
    } else {
      assert (a + b)[..|a + b| - 1] == a + b[..|b| - 1];
      ForwardedDistributes(a, b[..|b| - 1]);
    }
  }

  /** A line is forwarded exactly for each header that is not Host, whatever the case of its key. */
  lemma {:induction false} ForwardedExactly(incoming: seq<Header>, h: Header)
    ensures h in incoming && !IsHost(h) ==> HeaderLine(h) in Forwarded(incoming)
    ensures forall line :: line in Forwarded(incoming) ==>
              exists g :: g in incoming && !IsHost(g) && line == HeaderLine(g)
  {
    if incoming != [] {
      var init := incoming[..|incoming| - 1];
      ForwardedExactly(init, h);
      assert forall g :: g in init ==> g in incoming;
      if h in incoming && h != incoming[|incoming| - 1] {
        assert h in init;
      }
    }
  }

  /** The `foreach (getallheaders() ...)` loop. */
  method ForwardHeaders(incoming: seq<Header>) returns (headers: seq<string>)
    ensures headers == Forwarded(incoming)
  {
    headers := [];
    var i := 0;
    while i < |incoming|
      invariant 0 <= i <= |incoming|
      invariant headers == Forwarded(incoming[..i])
    {
      var h := incoming[i];
      if Lower(h.key) != "host" {
        headers := headers + [h.key + ": " + h.value];
      }
      assert incoming[..i + 1][..i] == incoming[..i];
      i := i + 1;
    }
    assert incoming[..|incoming|] == incoming;
  }

  /** The request curl sends upstream. */
  datatype Outgoing = Outgoing(url: string, verb: string, body: Option<string>, headers: seq<string>)

  function OutgoingRequest(requestUri: string, verb: string, input: string, incoming: seq<Header>): (out: Outgoing)
    ensures out.url == TargetUrl(requestUri) && out.verb == verb
    ensures out.body.Some? <==> ForwardsBody(verb)
    ensures out.body.Some? ==> out.body.value == input
    ensures out.headers == Forwarded(incoming)
  {
    Outgoing(TargetUrl(requestUri), verb, if ForwardsBody(verb) then Some(input) else None, Forwarded(incoming))
  }

  // ----- Relaying the response -----

  /** `substr($response, 0, $headerSize)` and `substr($response, $headerSize)` */
  function SplitAt(response: string, headerSize: nat): (parts: (string, string))
    ensures parts.0 + parts.1 == response
    ensures |parts.0| == if headerSize <= |response| then headerSize else |response|
  {
    var k := if headerSize <= |response| then headerSize else |response|;
    (response[..k], response[k..])
  }

  /** `explode("\r\n", $s)` */
  function Explode(s: string): (parts: seq<string>)
    ensures |parts| >= 1
    ensures |parts[0]| <= |s| && parts[0] == s[..|parts[0]|]
    ensures forall i :: 0 <= i < |parts| ==> NoCrlf(parts[i])
    decreases |s|
  {
    if |s| < 2 then [s]
    else if s[0] == '\r' && s[1] == '\n' then [""] + Explode(s[2..])
    else
      var rest := Explode(s[1..]);
      var first := [s[0]] + rest[0];
      assert first == s[..|first|];
      [first] + rest[1..]
  }

  predicate NoCrlf(p: string) {
    forall i :: 0 <= i < |p| - 1 ==> !(p[i] == '\r' && p[i + 1] == '\n')
  }

  /** `implode("\r\n", $parts)` */
  function Implode(parts: seq<string>): string
    requires |parts| >= 1
  {
    if |parts| == 1 then parts[0] else parts[0] + "\r\n" + Implode(parts[1..])
  }

  /** Exploding loses nothing: joining the pieces again gives the header block back. */
  lemma {:induction false} ExplodeRoundTrip(s: string)
    ensures Implode(Explode(s)) == s
    decreases |s|
  {
    if |s| >= 2 {
      if s[0] == '\r' && s[1] == '\n' {
        ExplodeRoundTrip(s[2..]);
        assert s == "\r\n" + s[2..];
      } else {
        var rest := Explode(s[1..]);
        ExplodeRoundTrip(s[1..]);
        ImplodeExtendsFirst(s[0], rest);
        assert s == [s[0]] + s[1..];
      }
    }
  }

  lemma {:induction false} ImplodeExtendsFirst(c: char, parts: seq<string>)
    requires |parts| >= 1
    ensures Implode([[c] + parts[0]] + parts[1..]) == [c] + Implode(parts)
  {
    var ps := [[c] + parts[0]] + parts[1..];
    if |parts| == 1 {
      assert ps == [[c] + parts[0]];
    } else {
      assert ps[0] == [c] + parts[0] && ps[1..] == parts[1..];
      var tail := "\r\n" + Implode(parts[1..]);
      assert Implode(ps) == ([c] + parts[0]) + tail;
      assert Implode(parts) == parts[0] + tail;
    }
  }

  /** PHP's `empty()` on a string: the empty string and "0". */
  predicate PhpEmpty(line: string) {
    line == "" || line == "0"
  }

  /** The lines the relay loop skips: empty ones, status lines and the hop-by-hop fields of section 7.6.1 of RFC 9110. */
  predicate Skipped(line: string) {
    || PhpEmpty(line)
    || StartsWith(line, "HTTP/")
    || StartsWith(Lower(line), "transfer-encoding:")
    || StartsWith(Lower(line), "connection:")
  }

  /** The `header()` calls the relay loop makes, in order. */
  function Relayed(lines: seq<string>): (out: seq<string>)
    ensures |out| <= |lines|
  {
    if lines == [] then []
    else Relayed(lines[..|lines| - 1]) + (if Skipped(lines[|lines| - 1]) then [] else [lines[|lines| - 1]])
  }

  lemma {:induction false} RelayedDistributes(a: seq<string>, b: seq<string>)
    ensures Relayed(a + b) == Relayed(a) + Relayed(b)
    decreases |b|
  {
    if b == [] {
      assert a + b == a;
    } else {
      var init, x := b[..|b| - 1], b[|b| - 1];
      assert (a + b)[..|a + b| - 1] == a + init && (a + b)[|a + b| - 1] == x;
      var tail := if Skipped(x) then [] else [x];
      assert Relayed(a + b) == Relayed(a + init) + tail;
      assert Relayed(b) == Relayed(init) + tail;
      RelayedDistributes(a, init);
    }
  }

  /** Only lines of the block are relayed, and none that is skipped: no status line, no `Connection`, no `Transfer-Encoding`. */
  lemma {:induction false} RelayedOnlyKept(lines: seq<string>)
    ensures forall l :: l in Relayed(lines) ==> l in lines && !Skipped(l)
  {
    if lines != [] {
      var init := lines[..|lines| - 1];
      RelayedOnlyKept(init);
      assert forall l :: l in init ==> l in lines;
    }
  }

  /** Every line that is not skipped is relayed. */
  lemma {:induction false} RelayedKeepsOthers(lines: seq<string>, l: string)
    requires l in lines && !Skipped(l)
    ensures l in Relayed(lines)
  {
    if l != lines[|lines| - 1] {
      RelayedKeepsOthers(lines[..|lines| - 1], l);
    }
  }

  /** The relay loop over the exploded header block. */
  method RelayHeaders(lines: seq<string>) returns (emitted: seq<string>)
    ensures emitted == Relayed(lines)
  {
    emitted := [];
    var i := 0;
    while i < |lines|
      invariant 0 <= i <= |lines|
      invariant emitted == Relayed(lines[..i])
    {
      var header := lines[i];
      assert lines[..i + 1][..i] == lines[..i];
      i := i + 1;
      if PhpEmpty(header) || StartsWith(header, "HTTP/") {
        continue;
      }
      var lowerHeader := Lower(header);
      if StartsWith(lowerHeader, "transfer-encoding:") || StartsWith(lowerHeader, "connection:") {
        continue;
      }
      emitted := emitted + [header];
    }
    assert lines[..|lines|] == lines;
  }

  /** What curl reports. */
  datatype Exchange = CurlError(message: string) | CurlDone(response: string, httpCode: int, headerSize: nat)

  /** What the proxy sends back: a status, the `header()` calls, and the body echoed. */
  datatype Reply = Reply(status: int, headers: seq<string>, body: Body)

  /** The echoed body: the upstream body, or the fixed "Service Unavailable" page carrying curl's message. */
  datatype Body = Relay(text: string) | Unavailable(message: string)

  // ----- The status PHP finally sends -----

  /** PHP's `header()` recognises a redirect by the field name, in any case. */
  predicate IsLocation(line: string) {
    StartsWith(Lower(line), "location:")
  }

  predicate HasLocation(lines: seq<string>) {
    exists i :: 0 <= i < |lines| && IsLocation(lines[i])
  }

  /**
   * The code PHP gives a redirect whose status it was not told: 303 for a
   * request other than GET or HEAD made over HTTP/1.1 or later, 302 otherwise.
   */
  function FoundCode(verb: string, http11: bool): (code: int)
    ensures code == 302 || code == 303
  {
    if http11 && verb != "GET" && verb != "HEAD" then 303 else 302
  }

  /**
   * The response code after `http_response_code(status)` and the `header()`
   * calls for `emitted`: a Location line replaces any code other than 201
   * and the 3xx codes by `found`.
   */
  function StatusAfter(status: int, emitted: seq<string>, found: int): int
    decreases |emitted|
  {
    if emitted == [] then status
    else
      var before := StatusAfter(status, emitted[..|emitted| - 1], found);
      if IsLocation(emitted[|emitted| - 1]) && before != 201 && !(300 <= before <= 399) then found else before
  }

  /** The status is the upstream one unless a relayed Location line overrides a code that is neither 201 nor a redirect. */
  lemma {:induction false} StatusAfterLocation(status: int, emitted: seq<string>, found: int)
    requires 300 <= found <= 399
    ensures StatusAfter(status, emitted, found)
            == if HasLocation(emitted) && status != 201 && !(300 <= status <= 399) then found else status
    decreases |emitted|
  {
    if emitted != [] {
      var init := emitted[..|emitted| - 1];
      StatusAfterLocation(status, init, found);
      assert forall i :: 0 <= i < |init| ==> init[i] == emitted[i];
      if HasLocation(emitted) && !IsLocation(emitted[|emitted| - 1]) {
        var i :| 0 <= i < |emitted| && IsLocation(emitted[i]);
        assert i < |init|;
      }
    }
  }

  /**
   * The reply. `verb` is the request method and `http11` whether the client
   * spoke HTTP/1.1 or later, both of which PHP consults when a Location line
   * is relayed.
   */
  function ReplyTo(exchange: Exchange, verb: string, http11: bool): (reply: Reply)
    ensures exchange.CurlError? ==> reply == Reply(503, [], Unavailable(exchange.message))
    ensures exchange.CurlDone? ==>
              && reply.headers == Relayed(Explode(SplitAt(exchange.response, exchange.headerSize).0))
              && reply.body.Relay?
              && reply.status == if HasLocation(reply.headers) && exchange.httpCode != 201 && !(300 <= exchange.httpCode <= 399)
                                 then FoundCode(verb, http11) else exchange.httpCode
  {
    match exchange
    case CurlError(message) => Reply(503, [], Unavailable(message))
    case CurlDone(response, httpCode, headerSize) =>
      var parts := SplitAt(response, headerSize);
      var emitted := Relayed(Explode(parts.0));
      StatusAfterLocation(httpCode, emitted, FoundCode(verb, http11));
      Reply(StatusAfter(httpCode, emitted, FoundCode(verb, http11)), emitted, Relay(parts.1))
  }

  /**
   * With redirects followed, the header block holds every hop's lines, so a
   * GET that was redirected and then answered 200 is relayed with the hop's
   * Location line and goes out as 302, whatever else the block holds.
   */
  lemma {:induction false} ScenarioFollowedRedirect(emitted: seq<string>, hop: nat)
    requires hop < |emitted| && IsLocation(emitted[hop])
    ensures StatusAfter(200, emitted, FoundCode("GET", true)) == 302
  {
    StatusAfterLocation(200, emitted, 302);
  }

  /** The relayed body and the unfiltered header block together are exactly the upstream response. */
  lemma {:induction false} ReplyKeepsResponse(response: string, httpCode: int, headerSize: nat)
    ensures var reply := ReplyTo(CurlDone(response, httpCode, headerSize), "GET", true);
            Implode(Explode(SplitAt(response, headerSize).0)) + reply.body.text == response
  {
    ExplodeRoundTrip(SplitAt(response, headerSize).0);
  }

  /** The whole script for one request. */
  method Handle(requestUri: string, verb: string, http11: bool, input: string, incoming: seq<Header>, exchange: Exchange)
    returns (sent: Outgoing, reply: Reply)
    ensures sent == OutgoingRequest(requestUri, verb, input, incoming)
    ensures reply == ReplyTo(exchange, verb, http11)
  {
    var headers := ForwardHeaders(incoming);
    sent := Outgoing(TargetUrl(requestUri), verb, if ForwardsBody(verb) then Some(input) else None, headers);
    if exchange.CurlError? {
      return sent, Reply(503, [], Unavailable(exchange.message));
    }
    var parts := SplitAt(exchange.response, exchange.headerSize);
    var emitted := RelayHeaders(Explode(parts.0));
    reply := Reply(StatusAfter(exchange.httpCode, emitted, FoundCode(verb, http11)), emitted, Relay(parts.1));
  }
}
