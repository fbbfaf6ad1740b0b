/** The SMS bridge: per-number session keys, splitting a reply into SMS
    chunks, when a reply is sent, and what each route answers. The HTTP
    calls are outside the model: the assistant's answer and the JSON
    parsers are parameters, and a send is recorded as the request it makes. */
module TelnyxBridge {
  import opened Wrappers
  import opened Text

  const TelnyxFrom := "+12539999067"
  const ChunkSize := 1500

  // ---------------------------------------------------------------------
  // Session keys

  /** `s` with every `c` removed, the rest in order. */
  function Without(s: string, c: char): (r: string)
    ensures c !in r
    ensures |r| == |s| - CountChar(s, c)
    ensures c !in s ==> r == s
  {
    if s == [] then ""
    else (if s[0] == c then "" else [s[0]]) + Without(s[1..], c)
  }

  /** `getSessionUser`: "telnyx-" and the number with every '+' removed. */
  function SessionUser(phone: string): (r: string)
    ensures StartsWith(r, "telnyx-")
    ensures '+' !in r[7..]
    ensures |r| == 7 + |phone| - CountChar(phone, '+')
  {
    var r := "telnyx-" + Without(phone, '+');
    assert r[..7] == "telnyx-" && r[7..] == Without(phone, '+');
    r
  }

  /** A number with and without its '+' signs shares one session, and two
      numbers share a session only when they agree once '+' is removed. */
  lemma SessionUserFacts(a: string, b: string)
    ensures SessionUser(a) == SessionUser(Without(a, '+'))
    ensures '+' !in a ==> SessionUser(a) == "telnyx-" + a
    ensures SessionUser(a) == SessionUser(b) <==> Without(a, '+') == Without(b, '+')
  {
    if SessionUser(a) == SessionUser(b) {
      assert SessionUser(a)[7..] == Without(a, '+');
      assert SessionUser(b)[7..] == Without(b, '+');
    }
  }

  // ---------------------------------------------------------------------
  // Chunking

  function Min(a: int, b: int): int { if a <= b then a else b }

  /** Each chunk holds at most 1500 characters and none is empty; every
      chunk but the last holds exactly 1500. */
  predicate FullChunks(cs: seq<string>) {
    && (forall k :: 0 <= k < |cs| ==> 0 < |cs[k]| <= ChunkSize)
    && (forall k :: 0 <= k < |cs| - 1 ==> |cs[k]| == ChunkSize)
  }

  /** The chunks `sendSMS` cuts: 1500 characters at a time, the last one
      holding what is left. Each holds at most 1500 characters and none is
      empty; every chunk but the last holds exactly 1500; empty text gives
      no chunk. */
  function ChunksOf(text: string): (cs: seq<string>)
    ensures FullChunks(cs)
    ensures cs == [] <==> text == []
    decreases |text|
  {
    if text == [] then []
    else if |text| <= ChunkSize then [text]
    else
      assert ([text[..ChunkSize]] + ChunksOf(text[ChunkSize..]))[1..] == ChunksOf(text[ChunkSize..]);
      [text[..ChunkSize]] + ChunksOf(text[ChunkSize..])
  }

  /** The chunks put back together, in order, are the text, and there are
      ceil(|text| / 1500) of them. */
  lemma {:induction false} ChunksReassemble(text: string)
    ensures Concat(ChunksOf(text)) == text
    ensures |ChunksOf(text)| == (|text| + ChunkSize - 1) / ChunkSize
    decreases |text|
  {
    if |text| > ChunkSize {
      ChunksReassemble(text[ChunkSize..]);
      assert ChunksOf(text)[1..] == ChunksOf(text[ChunkSize..]);
      assert text == text[..ChunkSize] + text[ChunkSize..];
    } else if text != [] {
      assert Concat([text]) == text + Concat([]);
    }
  }

  /** The chunking loop of `sendSMS`. */
  method SplitChunks(text: string) returns (chunks: seq<string>)
    ensures chunks == ChunksOf(text)
  {
    chunks := [];
    var i := 0;
    while i < |text|
      invariant i <= |text| ==> chunks + ChunksOf(text[i..]) == ChunksOf(text)
      invariant i > |text| ==> chunks == ChunksOf(text)
      decreases |text| - i
    {
      var chunk := text[i..Min(i + ChunkSize, |text|)];
      ChunksFront(text, i);
      if i + ChunkSize > |text| {
        assert chunk == text[i..];
      } else {
        assert text[|text|..] == [];
      }
      chunks := chunks + [chunk];
      i := i + ChunkSize;
    }
  }

  /** The first chunk of what is left from position `i` is the slice the
      loop takes there. */
  lemma ChunksFront(text: string, i: nat)
    requires i < |text|
    ensures i + ChunkSize <= |text| ==>
              ChunksOf(text[i..]) == [text[i..i + ChunkSize]] + ChunksOf(text[i + ChunkSize..])
    ensures i + ChunkSize > |text| ==> ChunksOf(text[i..]) == [text[i..]]
  {
    if i + ChunkSize < |text| {
      assert text[i..][..ChunkSize] == text[i..i + ChunkSize] && text[i..][ChunkSize..] == text[i + ChunkSize..];
    } else if i + ChunkSize == |text| {
      assert text[i + ChunkSize..] == [];
      assert text[i..i + ChunkSize] == text[i..];
    }
  }

  /** One request to the SMS API. */
  datatype Sms = Sms(from: string, to: Option<string>, text: string)

  /** The requests `sendSMS` makes, one per chunk, in order. */
  function Requests(to: Option<string>, chunks: seq<string>): (r: seq<Sms>)
    ensures |r| == |chunks|
    ensures forall k :: 0 <= k < |r| ==> r[k] == Sms(TelnyxFrom, to, chunks[k])
  {
    if chunks == [] then [] else Requests(to, chunks[..|chunks| - 1]) + [Sms(TelnyxFrom, to, chunks[|chunks| - 1])]
  }

  /** `sendSMS`: one request per chunk. */
  method SendSMS(to: Option<string>, text: string) returns (sent: seq<Sms>)
    ensures sent == Requests(to, ChunksOf(text))
  {
    var chunks := SplitChunks(text);
    sent := [];
    for k := 0 to |chunks|
      invariant sent == Requests(to, chunks[..k])
    {
      assert chunks[..k + 1][..k] == chunks[..k];
      sent := sent + [Sms(TelnyxFrom, to, chunks[k])];
    }
    assert chunks[..|chunks|] == chunks;
  }

  /** An empty text sends nothing; the texts sent, in order, are the text. */
  lemma SendFacts(to: Option<string>, text: string)
    ensures text == "" ==> Requests(to, ChunksOf(text)) == []
    ensures |Requests(to, ChunksOf(text))| == (|text| + ChunkSize - 1) / ChunkSize
    ensures forall k :: 0 <= k < |Requests(to, ChunksOf(text))| ==>
              Requests(to, ChunksOf(text))[k].text == ChunksOf(text)[k]
  {
    ChunksReassemble(text);
  }

  // ---------------------------------------------------------------------
  // Replies

  /** A reply is sent only when the assistant answered without error, the
      answer is non-empty, and trimmed it is neither "NO_REPLY" nor
      "HEARTBEAT_OK". `answer` is None when the assistant call failed. An
      answer of white space only is still sent: it is non-empty and its trim
      is neither word. */
  predicate ShouldReply(answer: Option<string>)
    ensures answer.None? || answer == Some("") ==> !ShouldReply(answer)
    ensures answer.Some? && answer.value != "" && Blank(answer.value) ==> ShouldReply(answer)
  {
    if answer.Some? then
      BlankTrims(answer.value);
      answer.value != "" && Trim(answer.value) != "NO_REPLY" && Trim(answer.value) != "HEARTBEAT_OK"
    else false
  }

  /** Only white space. */
  predicate Blank(s: string) {
    forall i :: 0 <= i < |s| ==> IsJsSpace(s[i])
  }

  /** A blank string trims to nothing. */
  lemma BlankTrims(s: string)
    ensures Blank(s) ==> Trim(s) == []
  {
  }

  lemma {:induction false} TrimStartPadded(w: string, s: string)
    requires Blank(w)
    requires s != [] && !IsJsSpace(s[0])
    ensures TrimStart(w + s) == s
    decreases |w|
  {
    if w != [] {
      var ws := w + s;
      assert ws[0] == w[0] && IsJsSpace(w[0]);
      assert ws[1..] == w[1..] + s;
      assert TrimStart(ws) == TrimStart(ws[1..]);
      TrimStartPadded(w[1..], s);
    } else {
      assert w + s == s;
    }
  }

  lemma {:induction false} TrimEndPadded(s: string, w: string)
    requires Blank(w)
    requires s != [] && !IsJsSpace(s[|s| - 1])
    ensures TrimEnd(s + w) == s
    decreases |w|
  {
    if w != [] {
      var sw := s + w;
      assert sw[|sw| - 1] == w[|w| - 1] && IsJsSpace(w[|w| - 1]);
      assert sw[..|sw| - 1] == s + w[..|w| - 1];
      assert TrimEnd(sw) == TrimEnd(sw[..|sw| - 1]);
      TrimEndPadded(s, w[..|w| - 1]);
    } else {
      assert s + w == s;
    }
  }

  /** A suppression word with white space around it is still suppressed. */
  lemma PaddedKeywordSuppressed(before: string, word: string, after: string)
    requires word == "NO_REPLY" || word == "HEARTBEAT_OK"
    requires Blank(before) && Blank(after)
    ensures !ShouldReply(Some(before + word + after))
  {
    TrimStartPadded(before, word + after);
    AppendAssoc(before, word, after);
    TrimEndPadded(word, after);
  }

  // ---------------------------------------------------------------------
  // Routes

  /** The fields of an inbound event the bridge reads. */
  datatype InboundPayload = InboundPayload(fromPhone: Option<string>, text: Option<string>)
  datatype EventData = EventData(eventType: Option<string>, payload: Option<InboundPayload>)
  datatype Event = Event(data: Option<EventData>)

  /** The body of a `/send` request. */
  datatype SendBody = SendBody(to: Option<string>, text: Option<string>)

  /** The request to the assistant: the session user and the prompt. */
  datatype AskRequest = AskRequest(user: string, content: string)

  datatype Body = Text(text: string) | HealthJson | ErrorMessage

  datatype RouteResult = RouteResult(status: nat, body: Body, ask: Option<AskRequest>, sent: seq<Sms>)

  /** The inbound message the webhook passes to the assistant: only a
      "message.received" event with a payload and a sender number gets
      there (a missing payload or number throws and is swallowed). */
  function Inbound(event: Option<Event>): (r: Option<(string, Option<string>)>)
    ensures r.Some? <==>
              event.Some? && event.value.data.Some? && event.value.data.value.eventType == Some("message.received")
              && event.value.data.value.payload.Some? && event.value.data.value.payload.value.fromPhone.Some?
  {
    match event
    case None => None
    case Some(e) =>
      match e.data
      case None => None
      case Some(d) =>
        if d.eventType != Some("message.received") then None
        else match d.payload
          case None => None
          case Some(pl) =>
            match pl.fromPhone
            case None => None
            case Some(from) => Some((from, pl.text))
  }

  function AskFor(from: string, text: Option<string>): AskRequest {
    AskRequest(SessionUser(from), "[SMS from " + from + "]: " + Interp(text))
  }

  /** The request handler. `parseEvent` and `parseSend` stand for
      `JSON.parse` (None when it throws); `answer` is the assistant's reply
      to the inbound message (None when that call fails). */
  method Route(httpMethod: string, url: string, body: string,
               parseEvent: string -> Option<Event>, parseSend: string -> Option<SendBody>,
               answer: Option<string>)
    returns (r: RouteResult)
    ensures httpMethod == "POST" && url == "/telnyx/webhook" ==>
              r.status == 200 && r.body == Text("ok")
              && (r.ask.Some? <==> Inbound(parseEvent(body)).Some?)
              && (r.ask.Some? ==> r.ask.value == AskFor(Inbound(parseEvent(body)).value.0, Inbound(parseEvent(body)).value.1))
              && r.sent == (if r.ask.Some? && ShouldReply(answer)
                            then Requests(Some(Inbound(parseEvent(body)).value.0), ChunksOf(answer.value)) else [])
    ensures httpMethod == "POST" && url == "/send" ==>
              r.ask.None?
              && (parseSend(body).None? || parseSend(body).value.text.None? ==>
                    r.status == 400 && r.body == ErrorMessage && r.sent == [])
              && (parseSend(body).Some? && parseSend(body).value.text.Some? ==>
                    r.status == 200 && r.body == Text("ok")
                    && r.sent == Requests(parseSend(body).value.to, ChunksOf(parseSend(body).value.text.value)))
    ensures httpMethod == "GET" && url == "/health" ==> r == RouteResult(200, HealthJson, None, [])
    ensures !(httpMethod == "POST" && (url == "/telnyx/webhook" || url == "/send"))
            && !(httpMethod == "GET" && url == "/health") ==>
              r == RouteResult(200, Text("daequan bridge alive"), None, [])
  {
    if httpMethod == "POST" && url == "/telnyx/webhook" {
      r := RouteResult(200, Text("ok"), None, []);
      var inbound := Inbound(parseEvent(body));
      if inbound.Some? {
        var from := inbound.value.0;
        r := r.(ask := Some(AskFor(from, inbound.value.1)));
        if ShouldReply(answer) {
          var sent := SendSMS(Some(from), answer.value);
          r := r.(sent := sent);
        }
      }
    } else if httpMethod == "POST" && url == "/send" {
      var parsed := parseSend(body);
      if parsed.None? || parsed.value.text.None? {
        r := RouteResult(400, ErrorMessage, None, []);
      } else {
        var sent := SendSMS(parsed.value.to, parsed.value.text.value);
        r := RouteResult(200, Text("ok"), None, sent);
      }
    } else if httpMethod == "GET" && url == "/health" {
      r := RouteResult(200, HealthJson, None, []);
    } else {
      r := RouteResult(200, Text("daequan bridge alive"), None, []);
    }
  }
}
