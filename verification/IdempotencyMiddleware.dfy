/** The idempotency middleware: buffering the request, fingerprinting it, capturing the response,
    and one whole call from claim to answer. */
module IdempotencyMiddleware {
  import opened Http
  import opened IdempotencyStore

  /** What an ASGI `receive` yields, and what a handler may `send`. */
  datatype InMessage = Part(body: Bytes, more: bool) | Disconnect
  datatype OutMessage = Start(status: int, headers: seq<Header>) | Chunk(body: Bytes) | Other(kind: string)

  // ----- The request body -----

  function BodyOf(messages: seq<InMessage>): Bytes {
    if messages == [] then []
    else (if messages[0].Part? then messages[0].body else []) + BodyOf(messages[1..])
  }

  lemma {:induction false} BodyOfAppend(a: seq<InMessage>, b: seq<InMessage>)
    ensures BodyOf(a + b) == BodyOf(a) + BodyOf(b)
  {
    if a == [] {
      assert a + b == b;
    } else {
      BodyOfAppend(a[1..], b);
      var first := if a[0].Part? then a[0].body else [];
      assert BodyOf(a) == first + BodyOf(a[1..]);
      assert (a + b)[0] == a[0] && (a + b)[1..] == a[1..] + b;
      assert BodyOf(a + b) == first + BodyOf(a[1..] + b);
      hide BodyOf;
      Regroup(first, BodyOf(a[1..]), BodyOf(b));
    }
  }

  predicate EndsBody(m: InMessage) { m.Part? ==> !m.more }

  /** A server's stream ends a request body sooner or later. */
  predicate HasEnd(stream: seq<InMessage>) { exists i | 0 <= i < |stream| :: EndsBody(stream[i]) }

  /** The messages up to and including the one that ends the body. */
  function Whole(stream: seq<InMessage>): (w: seq<InMessage>)
    requires HasEnd(stream)
    ensures w != [] && w <= stream && EndsBody(w[|w| - 1])
    ensures forall i | 0 <= i < |w| - 1 :: !EndsBody(w[i])
  {
    if EndsBody(stream[0]) then stream[..1]
    else
      assert HasEnd(stream[1..]) by {
        var i :| 0 <= i < |stream| && EndsBody(stream[i]);
        assert stream[1..][i - 1] == stream[i];
      }
      [stream[0]] + Whole(stream[1..])
  }

  /** What is buffered of a request: its whole body, or nothing when that exceeds the cap.  The
      chunks do not matter. */
  function Buffered(stream: seq<InMessage>, max: nat): Option<Bytes>
    requires HasEnd(stream)
  {
    var body := BodyOf(Whole(stream));
    if |body| > max then None else Some(body)
  }

  /** A request in two parts is buffered exactly when both together fit, and then as their
      concatenation; a client that goes away ends the body where it is. */
  lemma TwoPartsAreBuffered(first: Bytes, second: Bytes, rest: seq<InMessage>, max: nat)
    ensures var stream := [Part(first, true), Part(second, false)] + rest;
            && HasEnd(stream) && Whole(stream) == [Part(first, true), Part(second, false)]
            && Buffered(stream, max) == if |first| + |second| <= max then Some(first + second) else None
    ensures var stream := [Part(first, true), Disconnect] + rest;
            && HasEnd(stream) && Whole(stream) == [Part(first, true), Disconnect]
            && Buffered(stream, max) == if |first| <= max then Some(first) else None
  {
    TwoMessages(Part(first, true), Part(second, false), rest);
    TwoMessages(Part(first, true), Disconnect, rest);
    assert first + [] == first;
  }

  lemma TwoMessages(a: InMessage, b: InMessage, rest: seq<InMessage>)
    requires a.Part? && a.more && (b.Part? ==> !b.more)
    ensures var stream := [a, b] + rest;
            && HasEnd(stream) && Whole(stream) == [a, b]
            && BodyOf([a, b]) == a.body + (if b.Part? then b.body else [])
  {
    var stream := [a, b] + rest;
    assert EndsBody(stream[1]);
    assert stream[1..] == [b] + rest;
    assert [b] == [a, b][1..] && [b][1..] == [];
    assert HasEnd(stream[1..]) by { assert EndsBody(stream[1..][0]); }
    assert Whole(stream[1..]) == [b];
    assert Whole(stream) == [a] + Whole(stream[1..]);
    assert BodyOf([b]) == (if b.Part? then b.body else []) + BodyOf([]);
    assert BodyOf([a, b]) == a.body + BodyOf([b]);
  }

  /** The server's `receive`. */
  class Channel {
    var pending: seq<InMessage>

    constructor (stream: seq<InMessage>)
      ensures pending == stream
    {
      pending := stream;
    }

    method Receive() returns (m: InMessage)
      requires pending != []
      modifies this
      ensures [m] + pending == old(pending)
    {
      m := pending[0];
      pending := pending[1..];
    }
  }

  /** The first of the pending messages, after `taken`: it adds its payload, and it may be the last. */
  lemma NextMessage(taken: seq<InMessage>, pending: seq<InMessage>)
    requires HasEnd(pending)
    ensures BodyOf(taken + [pending[0]])
         == BodyOf(taken) + (if pending[0].Part? then pending[0].body else [])
    ensures EndsBody(pending[0]) ==> Whole(pending) == [pending[0]]
    ensures !EndsBody(pending[0]) ==>
              HasEnd(pending[1..]) && Whole(pending) == [pending[0]] + Whole(pending[1..])
  {
    BodyOfAppend(taken, [pending[0]]);
    assert BodyOf([pending[0]]) == if pending[0].Part? then pending[0].body else [];
    if !EndsBody(pending[0]) {
      var i :| 0 <= i < |pending| && EndsBody(pending[i]);
      assert pending[1..][i - 1] == pending[i];
    }
  }

  /** Once the messages so far exceed the cap, so does the whole body. */
  lemma TooMuchAlready(stream: seq<InMessage>, taken: seq<InMessage>, rest: seq<InMessage>, max: nat)
    requires HasEnd(stream) && Whole(stream) == taken + rest && |BodyOf(taken)| > max
    ensures Buffered(stream, max).None?
  {
    BodyOfAppend(taken, rest);
  }

  /** `_buffer_body`: nothing is lost, and the verdict depends on the whole body alone. */
  method BufferBody(receive: Channel, max: nat) returns (body: Bytes, messages: seq<InMessage>, over: bool)
    requires HasEnd(receive.pending)
    modifies receive
    ensures messages + receive.pending == old(receive.pending)
    ensures over == Buffered(old(receive.pending), max).None?
    ensures !over ==> Some(body) == Buffered(old(receive.pending), max)
                      && messages == Whole(old(receive.pending))
  {
    ghost var stream := receive.pending;
    assert BodyOf([]) == [];
    hide BodyOf, Whole, HasEnd;
    messages, body, over := [], [], false;
    while true
      invariant HasEnd(receive.pending) && messages + receive.pending == stream
      invariant messages + Whole(receive.pending) == Whole(stream)
      invariant body == BodyOf(messages) && |body| <= max && !over
      decreases |receive.pending|
    {
      ghost var taken, pending := messages, receive.pending;
      NextMessage(taken, pending);
      var message := receive.Receive();
      assert message == pending[0] && receive.pending == pending[1..] && pending == [message] + pending[1..];
      messages := messages + [message];
      Regroup(taken, [message], pending[1..]);
      ghost var rest := if EndsBody(message) then [] else Whole(receive.pending);
      assert Whole(pending) == [message] + rest;
      Regroup(taken, [message], rest);
      if message.Part? {
        body := body + message.body;
        if |body| > max {
          over := true;
          TooMuchAlready(stream, messages, rest, max);
          break;
        }
        if !message.more { break; }
      } else {
        break;
      }
    }
    if !over {
      assert messages == messages + [] == Whole(stream);
      assert body == BodyOf(Whole(stream)) && |body| <= max;
    }
  }

  /** `_replayer`: the buffered messages, then empty bodies for ever. */
  class Replayer {
    var queue: seq<InMessage>

    constructor (messages: seq<InMessage>)
      ensures queue == messages
    {
      queue := messages;
    }

    method Receive() returns (m: InMessage)
      modifies this
      ensures old(queue) == [] ==> m == Part([], false) && queue == []
      ensures old(queue) != [] ==> [m] + queue == old(queue)
    {
      if queue == [] { return Part([], false); }
      m := queue[0];
      queue := queue[1..];
    }
  }

  /** `_chain_replayer`: the buffered messages, then the live stream. */
  class ChainReplayer {
    var queue: seq<InMessage>
    const receive: Channel

    constructor (messages: seq<InMessage>, receive: Channel)
      ensures queue == messages && this.receive == receive
    {
      queue := messages;
      this.receive := receive;
    }

    /** Everything the handler is still going to receive. */
    function Upcoming(): seq<InMessage>
      reads this, receive
    {
      queue + receive.pending
    }

    method Receive() returns (m: InMessage)
      requires Upcoming() != []
      modifies this, receive
      ensures [m] + Upcoming() == old(Upcoming())
    {
      if queue != [] {
        m := queue[0];
        queue := queue[1..];
      } else {
        m := receive.Receive();
      }
    }
  }

  // ----- The fingerprint -----

  const SPACE: byte := 32
  const NEWLINE: byte := 10

  /** What the digest is taken over; SHA-256 is treated as injective, so this stands for the hash. */
  function Preimage(verb: Bytes, path: Bytes, body: Bytes): Bytes {
    verb + [SPACE] + path + [NEWLINE] + body
  }

  lemma SplitAtFirst(a: Bytes, b: Bytes, c: Bytes, d: Bytes, x: byte)
    requires a + [x] + b == c + [x] + d && x !in a && x !in c
    ensures a == c && b == d
  {
    var s := a + [x] + b;
    assert s[|a|] == x && s[|c|] == x;
    assert forall i | 0 <= i < |a| :: s[i] == a[i];
    assert forall i | 0 <= i < |c| :: s[i] == c[i];
    assert |a| == |c|;
    assert a == s[..|a|] && c == s[..|c|] && b == s[|a| + 1..] && d == s[|c| + 1..];
  }

  /** Equal fingerprints mean equal requests, when neither path holds a newline. */
  lemma FingerprintIsInjective(verb: Bytes, path: Bytes, body: Bytes, verb': Bytes, path': Bytes, body': Bytes)
    requires SPACE !in verb && SPACE !in verb' && NEWLINE !in path && NEWLINE !in path'
    requires Preimage(verb, path, body) == Preimage(verb', path', body')
    ensures verb == verb' && path == path' && body == body'
  {
    AfterTheVerb(verb, path, body, verb', path', body');
    SplitAtFirst(path, body, path', body', NEWLINE);
  }

  /** A path with a newline always shares its fingerprint with another request. */
  lemma NewlineInPathCollides(verb: Bytes, path: Bytes, body: Bytes) returns (path': Bytes, body': Bytes)
    requires NEWLINE in path
    ensures path' != path && Preimage(verb, path', body') == Preimage(verb, path, body)
  {
    var i :| 0 <= i < |path| && path[i] == NEWLINE;
    path', body' := path[..i], path[i + 1..] + [NEWLINE] + body;
    assert path == path[..i] + [NEWLINE] + path[i + 1..];
    assert path' + [NEWLINE] + body' == path + [NEWLINE] + body;
    assert Preimage(verb, path', body') == verb + [SPACE] + (path' + [NEWLINE] + body');
    assert Preimage(verb, path, body) == verb + [SPACE] + (path + [NEWLINE] + body);
  }

  /** A request shares its fingerprint with another one exactly when its path or its body holds a
      newline: the two read the same text, and take different newlines for the end of the path. */
  lemma CollidesIffNewline(verb: Bytes, path: Bytes, body: Bytes)
    requires SPACE !in verb
    ensures (exists verb', path', body' :: SPACE !in verb' && (verb', path', body') != (verb, path, body)
               && Preimage(verb', path', body') == Preimage(verb, path, body))
       <==> (NEWLINE in path || NEWLINE in body)
  {
    if NEWLINE in path {
      var path', body' := NewlineInPathCollides(verb, path, body);
    } else if NEWLINE in body {
      var path', body' := NewlineInBodyCollides(verb, path, body);
    } else if verb', path', body' :| SPACE !in verb' && (verb', path', body') != (verb, path, body)
                                     && Preimage(verb', path', body') == Preimage(verb, path, body) {
      AfterTheVerb(verb', path', body', verb, path, body);
      OneNewline(path', body', path, body);
      assert false;
    }
  }

  lemma NewlineInBodyCollides(verb: Bytes, path: Bytes, body: Bytes) returns (path': Bytes, body': Bytes)
    requires NEWLINE in body
    ensures path' != path && Preimage(verb, path', body') == Preimage(verb, path, body)
  {
    var i :| 0 <= i < |body| && body[i] == NEWLINE;
    path', body' := path + [NEWLINE] + body[..i], body[i + 1..];
    assert body == body[..i] + [NEWLINE] + body[i + 1..];
    assert path' + [NEWLINE] + body' == path + [NEWLINE] + body;
    assert Preimage(verb, path', body') == verb + [SPACE] + (path' + [NEWLINE] + body');
    assert Preimage(verb, path, body) == verb + [SPACE] + (path + [NEWLINE] + body);
  }

  lemma AfterTheVerb(verb: Bytes, path: Bytes, body: Bytes, verb': Bytes, path': Bytes, body': Bytes)
    requires SPACE !in verb && SPACE !in verb' && Preimage(verb, path, body) == Preimage(verb', path', body')
    ensures verb == verb' && path + [NEWLINE] + body == path' + [NEWLINE] + body'
  {
    var rest, rest' := path + [NEWLINE] + body, path' + [NEWLINE] + body';
    assert Preimage(verb, path, body) == verb + [SPACE] + rest;
    assert Preimage(verb', path', body') == verb' + [SPACE] + rest';
    SplitAtFirst(verb, rest, verb', rest', SPACE);
  }

  /** A text with one newline splits at it in one way. */
  lemma OneNewline(path: Bytes, body: Bytes, path': Bytes, body': Bytes)
    requires path + [NEWLINE] + body == path' + [NEWLINE] + body' && NEWLINE !in path' && NEWLINE !in body'
    ensures path == path' && body == body'
  {
    var s := path' + [NEWLINE] + body';
    assert forall i | |path'| < i < |s| :: s[i] == body'[i - |path'| - 1];
    assert forall i | 0 <= i < |path'| :: s[i] == path'[i];
    assert s[|path|] == NEWLINE by { assert s == path + [NEWLINE] + body; }
    assert path == s[..|path'|] && body == s[|path'| + 1..];
  }

  // ----- The response -----

  /** Status and headers of the latest start message; 500 when there was none. */
  function StatusOf(sent: seq<OutMessage>): int {
    if sent == [] then 500
    else if sent[|sent| - 1].Start? then sent[|sent| - 1].status else StatusOf(sent[..|sent| - 1])
  }

  function HeadersOf(sent: seq<OutMessage>): seq<Header> {
    if sent == [] then []
    else if sent[|sent| - 1].Start? then sent[|sent| - 1].headers else HeadersOf(sent[..|sent| - 1])
  }

  function StreamedBody(sent: seq<OutMessage>): Bytes {
    if sent == [] then []
    else StreamedBody(sent[..|sent| - 1]) + (if sent[|sent| - 1].Chunk? then sent[|sent| - 1].body else [])
  }

  /** Status and headers are those of the last start message sent, whatever comes around it. */
  lemma {:induction false} LatestStartCounts(pre: seq<OutMessage>, status: int, headers: seq<Header>,
                                             post: seq<OutMessage>)
    requires forall i | 0 <= i < |post| :: !post[i].Start?
    ensures StatusOf(pre + [Start(status, headers)] + post) == status
    ensures HeadersOf(pre + [Start(status, headers)] + post) == headers
  {
    var sent := pre + [Start(status, headers)] + post;
    if post == [] {
      assert sent == pre + [Start(status, headers)];
    } else {
      assert sent[..|sent| - 1] == pre + [Start(status, headers)] + post[..|post| - 1];
      assert sent[|sent| - 1] == post[|post| - 1];
      LatestStartCounts(pre, status, headers, post[..|post| - 1]);
    }
  }

  /** A handler that never starts a response counts as a 500. */
  lemma {:induction false} NoStartIsAFailure(sent: seq<OutMessage>)
    requires forall i | 0 <= i < |sent| :: !sent[i].Start?
    ensures StatusOf(sent) == 500 && HeadersOf(sent) == []
  {
    if sent != [] { NoStartIsAFailure(sent[..|sent| - 1]); }
  }

  /** The body is all chunks, in order, and nothing else. */
  lemma {:induction false} BodiesConcatenate(a: seq<OutMessage>, b: seq<OutMessage>)
    ensures StreamedBody(a + b) == StreamedBody(a) + StreamedBody(b)
  {
    if b == [] {
      assert a + b == a;
    } else {
      BodiesConcatenate(a, b[..|b| - 1]);
      assert (a + b)[..|a + b| - 1] == a + b[..|b| - 1] && (a + b)[|a + b| - 1] == b[|b| - 1];
      var last := if b[|b| - 1].Chunk? then b[|b| - 1].body else [];
      assert StreamedBody(a + b) == StreamedBody(a + b[..|b| - 1]) + last;
      assert StreamedBody(b) == StreamedBody(b[..|b| - 1]) + last;
      hide StreamedBody;
      Regroup(StreamedBody(a), StreamedBody(b[..|b| - 1]), last);
    }
  }

  lemma OneMessageBody(m: OutMessage)
    ensures StreamedBody([m]) == match m { case Chunk(body) => body case _ => [] }
  {
    assert [m][..0] == [];
  }

  /** A response in two chunks. */
  function Answer(status: int, headers: seq<Header>, first: Bytes, second: Bytes): seq<OutMessage> {
    [Start(status, headers), Chunk(first), Chunk(second)]
  }

  lemma AnswerIs(status: int, headers: seq<Header>, first: Bytes, second: Bytes)
    ensures var sent := Answer(status, headers, first, second);
            StatusOf(sent) == status && HeadersOf(sent) == headers && StreamedBody(sent) == first + second
  {
    var sent := Answer(status, headers, first, second);
    LatestStartCounts([], status, headers, [Chunk(first), Chunk(second)]);
    assert sent == [] + [Start(status, headers)] + [Chunk(first), Chunk(second)];
    assert sent == [Start(status, headers)] + ([Chunk(first)] + [Chunk(second)]);
    OneMessageBody(Start(status, headers));
    OneMessageBody(Chunk(first));
    OneMessageBody(Chunk(second));
    hide StreamedBody, StatusOf, HeadersOf, Answer;
    BodiesConcatenate([Chunk(first)], [Chunk(second)]);
    BodiesConcatenate([Start(status, headers)], [Chunk(first)] + [Chunk(second)]);
  }

  /** The client's end of the connection. */
  class Client {
    var got: seq<OutMessage>

    constructor ()
      ensures got == []
    {
      got := [];
    }

    method Send(m: OutMessage)
      modifies this
      ensures got == old(got) + [m]
    {
      got := got + [m];
    }
  }

  /** `_ResponseCapture`: passes every message on unchanged and remembers what matters. */
  class ResponseCapture {
    const client: Client
    const max: nat
    var status: int
    var headers: seq<Header>
    var body: Bytes
    var tooBig: bool
    ghost var seen: seq<OutMessage>

    /** The body is kept exactly as long as all of it, so far, fits under the cap. */
    ghost predicate Valid()
      reads this
    {
      && status == StatusOf(seen) && headers == HeadersOf(seen)
      && (tooBig <==> |StreamedBody(seen)| > max)
      && (!tooBig ==> body == StreamedBody(seen))
    }

    constructor (client: Client, max: nat)
      ensures Valid() && seen == [] && this.client == client && this.max == max
    {
      this.client, this.max := client, max;
      status, headers, body, tooBig := 500, [], [], false;
      seen := [];
    }

    method Send(m: OutMessage)
      requires Valid()
      modifies this, client
      ensures Valid() && seen == old(seen) + [m] && client.got == old(client.got) + [m]
    {
      seen := seen + [m];
      assert seen[..|seen| - 1] == old(seen);
      if m.Start? {
        status, headers := m.status, m.headers;
      } else if m.Chunk? {
        if !tooBig {
          body := body + m.body;
          if |body| > max { tooBig := true; }
        }
      }
      client.Send(m);
    }
  }

  // ----- One call -----

  /** The parts of an HTTP scope that the middleware reads. */
  datatype Scope = Scope(verb: Bytes, path: Bytes, headers: seq<Header>, host: Option<string>)

  /** A handler's whole run: what it sent, and whether it then raised. */
  datatype HandlerRun = HandlerRun(sent: seq<OutMessage>, raised: bool)
  type App = seq<InMessage> -> HandlerRun

  const MUTATING: set<Bytes> := {Encode("POST"), Encode("PUT"), Encode("PATCH"), Encode("DELETE")}

  function Lookup(headers: seq<Header>, name: Bytes): Option<string> {
    if headers == [] then None
    else if headers[0].name == name then Some(Decode(headers[0].value))
    else Lookup(headers[1..], name)
  }

  /** The credential a request presents: an empty Authorization header counts as none. */
  function Presented(scope: Scope): Option<string> {
    var authorization := Lookup(scope.headers, Encode("authorization"));
    if authorization.Some? && authorization.value != "" then authorization
    else Lookup(scope.headers, Encode("x-api-key"))
  }

  function Fallback(host: Option<string>): string {
    if host.Some? then "ip:" + host.value else "anonymous"
  }

  /** `_caller_scope`, before hashing. */
  function Credential(scope: Scope): string {
    var credential := Presented(scope);
    if credential.Some? then credential.value else Fallback(scope.host)
  }

  /** Two requests share a key namespace exactly when they present the same value, in whichever of the
      two headers, or present none and come from the same host, or when one presents as its credential
      the very text that stands for the other's host. */
  lemma SameNamespaceIff(scope: Scope, scope': Scope)
    ensures Credential(scope) == Credential(scope') <==>
            match (Presented(scope), Presented(scope')) {
              case (Some(v), Some(v')) => v == v'
              case (None, None) => scope.host == scope'.host
              case (Some(v), None) => v == Fallback(scope'.host)
              case (None, Some(v')) => v' == Fallback(scope.host)
            }
  {
    var a, b := Fallback(scope.host), Fallback(scope'.host);
    if a == b {
      assert scope.host.Some? ==> a[0] == 'i' && a[3..] == scope.host.value;
      assert scope'.host.Some? ==> b[0] == 'i' && b[3..] == scope'.host.value;
    }
  }

  /** Two callers in one namespace: one sends the text that stands for the host of the other, who sends
      nothing; or they send one value in different headers. */
  lemma CallersCanCollide(verb: Bytes, path: Bytes, host: string, value: Bytes)
    requires IsLatin1(host) && Decode(value) != ""
    ensures var named := [Header(Encode("authorization"), Encode("ip:" + host))];
            Credential(Scope(verb, path, named, None)) == Credential(Scope(verb, path, [], Some(host)))
    ensures var bearer := [Header(Encode("authorization"), value)];
            var apiKey := [Header(Encode("x-api-key"), value)];
            Credential(Scope(verb, path, bearer, None)) == Credential(Scope(verb, path, apiKey, None))
  {
    EncodedDecodes("ip:" + host);
    AuthorizationCounts(verb, path, Encode("ip:" + host), None);
    AuthorizationCounts(verb, path, value, None);
    ApiKeyCounts(verb, path, value, None);
    hide Encode, Decode, Presented;
  }

  lemma EncodedDecodes(s: string)
    requires IsLatin1(s)
    ensures Decode(Encode(s)) == s
  {
  }

  lemma AuthorizationCounts(verb: Bytes, path: Bytes, value: Bytes, host: Option<string>)
    requires Decode(value) != ""
    ensures Credential(Scope(verb, path, [Header(Encode("authorization"), value)], host)) == Decode(value)
  {
  }

  lemma ApiKeyCounts(verb: Bytes, path: Bytes, value: Bytes, host: Option<string>)
    ensures Credential(Scope(verb, path, [Header(Encode("x-api-key"), value)], host)) == Decode(value)
  {
    var headers := [Header(Encode("x-api-key"), value)];
    assert |Encode("authorization")| == 13 && |Encode("x-api-key")| == 9;
    assert headers[1..] == [] && Lookup(headers, Encode("authorization")) == None;
  }

  function KeyOf(scope: Scope): Option<string> {
    if scope.verb in MUTATING then Lookup(scope.headers, Encode("idempotency-key")) else None
  }

  lemma {:induction false} FirstOfItsName(pre: seq<Header>, name: Bytes, value: Bytes, post: seq<Header>)
    requires forall i | 0 <= i < |pre| :: pre[i].name != name
    ensures Lookup(pre + [Header(name, value)] + post, name) == Some(Decode(value))
  {
    var headers := pre + [Header(name, value)] + post;
    if pre != [] {
      assert headers[1..] == pre[1..] + [Header(name, value)] + post;
      FirstOfItsName(pre[1..], name, value, post);
    }
  }

  lemma {:induction false} NoneOfItsName(headers: seq<Header>, name: Bytes)
    requires forall i | 0 <= i < |headers| :: headers[i].name != name
    ensures Lookup(headers, name) == None
  {
    if headers != [] { NoneOfItsName(headers[1..], name); }
  }

  /** A request is keyed by the first `idempotency-key` header of a POST, PUT, PATCH or DELETE, and by
      nothing else. */
  lemma KeyedBy(scope: Scope, pre: seq<Header>, value: Bytes, post: seq<Header>)
    ensures scope.verb !in {Encode("POST"), Encode("PUT"), Encode("PATCH"), Encode("DELETE")} ==> KeyOf(scope) == None
    ensures (forall i | 0 <= i < |scope.headers| :: scope.headers[i].name != Encode("idempotency-key")) ==>
              KeyOf(scope) == None
    ensures scope.verb in {Encode("POST"), Encode("PUT"), Encode("PATCH"), Encode("DELETE")}
            && (forall i | 0 <= i < |pre| :: pre[i].name != Encode("idempotency-key"))
            && scope.headers == pre + [Header(Encode("idempotency-key"), value)] + post ==>
              KeyOf(scope) == Some(Decode(value))
  {
    var name := Encode("idempotency-key");
    if forall i | 0 <= i < |scope.headers| :: scope.headers[i].name != name { NoneOfItsName(scope.headers, name); }
    if forall i | 0 <= i < |pre| :: pre[i].name != name { FirstOfItsName(pre, name, value, post); }
  }

  /** The Authorization header comes first, the API key second, then the host; an empty Authorization
      header counts as none. */
  lemma CredentialOrder(verb: Bytes, path: Bytes, authorization: Bytes, apiKey: Bytes, host: Option<string>)
    requires authorization != []
    ensures var headers := [Header(Encode("x-api-key"), apiKey), Header(Encode("authorization"), authorization)];
            Credential(Scope(verb, path, headers, host)) == Decode(authorization)
    ensures var headers := [Header(Encode("authorization"), []), Header(Encode("x-api-key"), apiKey)];
            Credential(Scope(verb, path, headers, host)) == Decode(apiKey)
    ensures Credential(Scope(verb, path, [], host)) == match host { case Some(h) => "ip:" + h case None => "anonymous" }
  {
    var auth, key := Encode("authorization"), Encode("x-api-key");
    assert |auth| == 13 && |key| == 9;
    FirstOfItsName([Header(key, apiKey)], auth, authorization, []);
    FirstOfItsName([], auth, [], [Header(key, apiKey)]);
    FirstOfItsName([Header(auth, [])], key, apiKey, []);
    assert [Header(key, apiKey)] + [Header(auth, authorization)] + []
        == [Header(key, apiKey), Header(auth, authorization)];
    assert [] + [Header(auth, [])] + [Header(key, apiKey)] == [Header(auth, []), Header(key, apiKey)];
    assert [Header(auth, [])] + [Header(key, apiKey)] + [] == [Header(auth, []), Header(key, apiKey)];
    hide Encode, Lookup;
    NoneOfItsName([], auth);
    NoneOfItsName([], key);
  }

  function HashOf(scope: Scope, body: Bytes): string { Decode(Preimage(scope.verb, scope.path, body)) }

  const MARKER := Header(Encode("idempotent-replayed"), Encode("true"))

  function ReplayMessages(cached: Response): seq<OutMessage> {
    [Start(cached.status, cached.headers + [MARKER]), Chunk(cached.body)]
  }

  /** The bytes of a text that is ASCII anyway. */
  function Ascii(s: string): Bytes {
    seq(|s|, i requires 0 <= i < |s| => if s[i] < 128 as char then s[i] as byte else 63)
  }

  function Problem(status: int, detail: string): seq<OutMessage> {
    [Start(status, [Header(Ascii("content-type"), Ascii("application/json"))]),
     Chunk(Ascii("{\"detail\": \"" + detail + "\"}"))]
  }

  const CONFLICT := Problem(409, "A request with this Idempotency-Key is already in progress")
  const REUSED := Problem(422, "Idempotency-Key was reused with a different request")

  /** What a finished handler run does to its claim. */
  function Settled(table: Table, id: Id, run: HandlerRun, max: nat): Table {
    if run.raised || |StreamedBody(run.sent)| > max || StatusOf(run.sent) >= 500 then ReleaseRow(table, id)
    else CompleteRow(table, id, Response(StatusOf(run.sent), HeadersOf(run.sent), StreamedBody(run.sent)))
  }

  datatype Served = Served(sent: seq<OutMessage>, table: Table, runs: nat, raised: bool)

  /** The effect of one call that no other request interleaves with. */
  function Serve(scope: Scope, stream: seq<InMessage>, app: App, table: Table, now: int, ttl: int, max: nat): Served
    requires AllReadable(table) && HasEnd(stream)
  {
    var key := KeyOf(scope);
    if key.None? then Served(app(stream).sent, table, 1, app(stream).raised)
    else
      var buffered := Buffered(stream, max);
      if buffered.None? then Served(app(stream).sent, table, 1, app(stream).raised)
      else
        var id := Id(Credential(scope), key.value);
        var (outcome, claimed) := ClaimRow(table, id, HashOf(scope, buffered.value), now, ttl);
        match outcome
        case Replay(cached) => Served(ReplayMessages(cached), claimed, 0, false)
        case Busy => Served(CONFLICT, claimed, 0, false)
        case Mismatch => Served(REUSED, claimed, 0, false)
        case Owned =>
          var run := app(Whole(stream));
          Served(run.sent, Settled(claimed, id, run, max), 1, run.raised)
  }

  class IdempotencyMiddleware {
    const store: SqlIdempotencyStore
    const ttl: int
    const max: nat
    // How many times a handler was run.
    var runs: nat

    constructor (store: SqlIdempotencyStore, ttl: int, max: nat)
      ensures this.store == store && this.ttl == ttl && this.max == max && runs == 0
    {
      this.store, this.ttl, this.max := store, ttl, max;
      runs := 0;
    }

    method SendAll(client: Client, messages: seq<OutMessage>)
      modifies client
      ensures client.got == old(client.got) + messages
    {
      for i := 0 to |messages|
        invariant client.got == old(client.got) + messages[..i]
      {
        client.Send(messages[i]);
      }
      assert messages[..|messages|] == messages;
    }

    /** `__call__`, start to end, with the clock reading that `claim` takes. */
    method Call(scope: Scope, receive: Channel, client: Client, app: App, now: int) returns (raised: bool)
      requires store.Valid() && HasEnd(receive.pending)
      modifies this`runs, store, receive, client
      ensures store.Valid()
      ensures var served := Serve(scope, old(receive.pending), app, old(store.table), now, ttl, max);
              && client.got == old(client.got) + served.sent
              && store.table == served.table
              && runs == old(runs) + served.runs && raised == served.raised
    {
      var key := KeyOf(scope);
      if key.None? {
        var run := app(receive.pending);
        runs := runs + 1;
        SendAll(client, run.sent);
        return run.raised;
      }
      var body, messages, over := BufferBody(receive, max);
      if over {
        var chained := new ChainReplayer(messages, receive);
        var run := app(chained.Upcoming());
        runs := runs + 1;
        SendAll(client, run.sent);
        return run.raised;
      }
      var id := Id(Credential(scope), key.value);
      var outcome := store.Claim(id, HashOf(scope, body), ttl, now);
      match outcome {
        case Replay(cached) => SendAll(client, ReplayMessages(cached)); return false;
        case Busy => SendAll(client, CONFLICT); return false;
        case Mismatch => SendAll(client, REUSED); return false;
        case Owned => raised := RunOwned(id, client, app, messages);
      }
    }

    /** The handler runs behind a capture, and its claim is completed or released. */
    method RunOwned(id: Id, client: Client, app: App, messages: seq<InMessage>) returns (raised: bool)
      requires store.Valid()
      modifies this`runs, store, client
      ensures store.Valid() && runs == old(runs) + 1
      ensures var run := app(messages);
              && client.got == old(client.got) + run.sent && raised == run.raised
              && store.table == Settled(old(store.table), id, run, max)
    {
      var replayer := new Replayer(messages);
      var run := app(replayer.queue);
      runs := runs + 1;
      var captured := new ResponseCapture(client, max);
      for i := 0 to |run.sent|
        invariant captured.Valid() && captured.seen == run.sent[..i] && fresh(captured)
        invariant captured.client == client && captured.max == max
        invariant client.got == old(client.got) + run.sent[..i]
        invariant store.table == old(store.table) && store.Valid() && runs == old(runs) + 1
      {
        captured.Send(run.sent[i]);
      }
      assert run.sent[..|run.sent|] == run.sent;
      raised := run.raised;
      if run.raised || captured.tooBig || captured.status >= 500 {
        store.Release(id);
      } else {
        store.Complete(id, Response(captured.status, captured.headers, captured.body));
      }
    }
  }

  // ----- What a client can rely on, call after call -----

  predicate IsFinal(run: HandlerRun, max: nat) {
    !run.raised && |StreamedBody(run.sent)| <= max && StatusOf(run.sent) < 500
  }

  /** Two calls carry the same request: same key, same caller, same verb, path and body, whatever
      the chunks and the other headers. */
  predicate SameRequest(scope: Scope, stream: seq<InMessage>, scope': Scope, stream': seq<InMessage>, max: nat)
    requires HasEnd(stream) && HasEnd(stream')
  {
    && KeyOf(scope).Some? && KeyOf(scope') == KeyOf(scope) && Credential(scope') == Credential(scope)
    && scope'.verb == scope.verb && scope'.path == scope.path
    && Buffered(stream, max).Some? && Buffered(stream', max) == Buffered(stream, max)
  }

  /** Whatever the key's history, once it is free a call runs the handler; a retry of that call
      within the TTL does not run it again, and gets its answer: same status, same body, same
      headers but the excluded ones, and the marker. */
  lemma RetryReplays(scope: Scope, stream: seq<InMessage>, scope': Scope, stream': seq<InMessage>,
                     app: App, app': App, table: Table, now: int, later: int, ttl: int, max: nat)
    requires AllReadable(table) && HasEnd(stream) && HasEnd(stream')
    requires SameRequest(scope, stream, scope', stream', max)
    requires Current(table, Id(Credential(scope), KeyOf(scope).value), now) == None
    requires now <= later < now + ttl && IsFinal(app(Whole(stream)), max)
    ensures var first := Serve(scope, stream, app, table, now, ttl, max);
            && first.runs == 1 && first.sent == app(Whole(stream)).sent && AllReadable(first.table)
            && Serve(scope', stream', app', first.table, later, ttl, max)
               == Served([Start(StatusOf(first.sent), Kept(HeadersOf(first.sent)) + [MARKER]),
                          Chunk(StreamedBody(first.sent))], first.table, 0, false)
  {
    var id := Id(Credential(scope), KeyOf(scope).value);
    var run := app(Whole(stream));
    var response := Response(StatusOf(run.sent), HeadersOf(run.sent), StreamedBody(run.sent));
    var claimed := Claimed(HashOf(scope, Buffered(stream, max).value), now + ttl);
    AnsweredIsCached(claimed, response);
    AfterIsReadable(table[id := claimed], now, CallComplete(id, response));
  }

  /** An answer that is not final leaves no trace: the retry runs the handler again. */
  lemma FailureIsRetried(scope: Scope, stream: seq<InMessage>, app: App, table: Table, now: int, ttl: int, max: nat)
    requires AllReadable(table) && HasEnd(stream) && KeyOf(scope).Some? && Buffered(stream, max).Some?
    requires var id := Id(Credential(scope), KeyOf(scope).value);
             Current(table, id, now) == None && !IsFinal(app(Whole(stream)), max)
    ensures Serve(scope, stream, app, table, now, ttl, max).runs == 1
    ensures Serve(scope, stream, app, table, now, ttl, max).table
         == table - {Id(Credential(scope), KeyOf(scope).value)}
  {
  }

  /** The same key with another body, path or verb is refused and runs nothing, as long as the
      first claim is current and no path holds a newline. */
  lemma OtherRequestIsRefused(scope: Scope, stream: seq<InMessage>, scope': Scope, stream': seq<InMessage>,
                              app: App, app': App, table: Table, now: int, later: int, ttl: int, max: nat)
    requires AllReadable(table) && HasEnd(stream) && HasEnd(stream')
    requires KeyOf(scope).Some? && KeyOf(scope') == KeyOf(scope) && Credential(scope') == Credential(scope)
    requires Buffered(stream, max).Some? && Buffered(stream', max).Some?
    requires NEWLINE !in scope.path && NEWLINE !in scope'.path
    requires (scope.verb, scope.path, Buffered(stream, max)) != (scope'.verb, scope'.path, Buffered(stream', max))
    requires Current(table, Id(Credential(scope), KeyOf(scope).value), now) == None
    requires now <= later < now + ttl && IsFinal(app(Whole(stream)), max)
    ensures var first := Serve(scope, stream, app, table, now, ttl, max);
            && AllReadable(first.table)
            && Serve(scope', stream', app', first.table, later, ttl, max) == Served(REUSED, first.table, 0, false)
  {
    var id := Id(Credential(scope), KeyOf(scope).value);
    var run := app(Whole(stream));
    var response := Response(StatusOf(run.sent), HeadersOf(run.sent), StreamedBody(run.sent));
    var body, body' := Buffered(stream, max).value, Buffered(stream', max).value;
    var claimed := Claimed(HashOf(scope, body), now + ttl);
    AfterIsReadable(table[id := claimed], now, CallComplete(id, response));
    if HashOf(scope, body) == HashOf(scope', body') {
      EncodeDecode(Preimage(scope.verb, scope.path, body));
      EncodeDecode(Preimage(scope'.verb, scope'.path, body'));
      VerbsHaveNoSpace(scope.verb);
      VerbsHaveNoSpace(scope'.verb);
      FingerprintIsInjective(scope.verb, scope.path, body, scope'.verb, scope'.path, body');
    }
  }

  lemma VerbsHaveNoSpace(verb: Bytes)
    requires verb in MUTATING
    ensures SPACE !in verb
  {
  }

  /** Without a key, or with a body over the cap, a call runs the handler once, on the stream as it
      came, and leaves the store alone. */
  lemma UnkeyedPassThrough(scope: Scope, stream: seq<InMessage>, app: App, table: Table, now: int, ttl: int, max: nat)
    requires AllReadable(table) && HasEnd(stream)
    requires || scope.verb !in {Encode("POST"), Encode("PUT"), Encode("PATCH"), Encode("DELETE")}
             || (forall i | 0 <= i < |scope.headers| :: scope.headers[i].name != Encode("idempotency-key"))
             || |BodyOf(Whole(stream))| > max
    ensures Serve(scope, stream, app, table, now, ttl, max)
         == Served(app(stream).sent, table, 1, app(stream).raised)
  {
    KeyedBy(scope, [], [], []);
  }

  /** While a claim of the key is current, a duplicate is refused without running anything: with 409
      when it is the same request and the first has not answered yet, with 422 when it is another. */
  lemma DuplicatesAreRefused(scope: Scope, stream: seq<InMessage>, app: App, table: Table, now: int, ttl: int,
                             max: nat, claimed: string, expiresAt: int)
    requires AllReadable(table) && HasEnd(stream) && KeyOf(scope).Some? && Buffered(stream, max).Some?
    requires expiresAt > now
    requires var id := Id(Credential(scope), KeyOf(scope).value);
             id in table && table[id] == Claimed(claimed, expiresAt)
    ensures var served := Serve(scope, stream, app, table, now, ttl, max);
            && served.runs == 0 && served.table == table && !served.raised
            && |served.sent| == 2 && served.sent[0].Start? && served.sent[1].Chunk?
            && served.sent[0].status == if claimed == HashOf(scope, Buffered(stream, max).value) then 409 else 422
  {
  }

  lemma MarkerIs()
    ensures MARKER == Header(Encode("idempotent-replayed"), Encode("true"))
  {
  }

  /** A replay in plain terms.  The handler answered with a status below 500 and two chunks that fit:
      a retry within the TTL runs nothing and gets that status, the headers but the excluded ones, one
      marker header, and both chunks as one body. */
  lemma TwoChunkAnswerIsReplayed(scope: Scope, stream: seq<InMessage>, scope': Scope, stream': seq<InMessage>,
                                 app: App, app': App, table: Table, now: int, later: int, ttl: int, max: nat,
                                 status: int, headers: seq<Header>, first: Bytes, second: Bytes)
    requires AllReadable(table) && HasEnd(stream) && HasEnd(stream')
    requires SameRequest(scope, stream, scope', stream', max)
    requires Current(table, Id(Credential(scope), KeyOf(scope).value), now) == None && now <= later < now + ttl
    requires app(Whole(stream)) == HandlerRun([Start(status, headers), Chunk(first), Chunk(second)], false)
    requires status < 500 && |first| + |second| <= max
    ensures var served := Serve(scope, stream, app, table, now, ttl, max);
            && served.runs == 1 && served.sent == [Start(status, headers), Chunk(first), Chunk(second)]
            && AllReadable(served.table)
            && Serve(scope', stream', app', served.table, later, ttl, max)
               == Served([Start(status, Kept(headers) + [MARKER]),
                          Chunk(first + second)], served.table, 0, false)
  {
    AnswerIs(status, headers, first, second);
    hide StatusOf, HeadersOf, StreamedBody, Kept;
    RetryReplays(scope, stream, scope', stream', app, app', table, now, later, ttl, max);
  }

  /** And one that is never replayed: a status of 500 or more, chunks that do not fit, or an exception.
      The retry runs its handler. */
  lemma UnfitAnswerIsRetried(scope: Scope, stream: seq<InMessage>, scope': Scope, stream': seq<InMessage>,
                             app: App, app': App, table: Table, now: int, later: int, ttl: int, max: nat,
                             status: int, headers: seq<Header>, first: Bytes, second: Bytes, raised: bool)
    requires AllReadable(table) && HasEnd(stream) && HasEnd(stream')
    requires SameRequest(scope, stream, scope', stream', max)
    requires Current(table, Id(Credential(scope), KeyOf(scope).value), now) == None
    requires app(Whole(stream)) == HandlerRun([Start(status, headers), Chunk(first), Chunk(second)], raised)
    requires status >= 500 || |first| + |second| > max || raised
    ensures var served := Serve(scope, stream, app, table, now, ttl, max);
            && served.runs == 1 && served.raised == raised && AllReadable(served.table)
            && Serve(scope', stream', app', served.table, later, ttl, max).runs == 1
            && Serve(scope', stream', app', served.table, later, ttl, max).sent == app'(Whole(stream')).sent
  {
    AnswerIs(status, headers, first, second);
    hide StatusOf, HeadersOf, StreamedBody;
    FailureIsRetried(scope, stream, app, table, now, ttl, max);
  }

  /** A call touches no key but its own caller's. */
  lemma OtherKeysUntouched(scope: Scope, stream: seq<InMessage>, app: App, table: Table, now: int, ttl: int,
                           max: nat, other: Id)
    requires AllReadable(table) && HasEnd(stream)
    requires KeyOf(scope).Some? ==> other != Id(Credential(scope), KeyOf(scope).value)
    ensures Current(Serve(scope, stream, app, table, now, ttl, max).table, other, now) == Current(table, other, now)
  {
    hide Answered, Preimage, BodyOf, Whole, StatusOf, HeadersOf, StreamedBody;
  }
}
