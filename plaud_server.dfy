/** The call webhook: the chat message built from a call payload and the
    answer to each request method. Parsing JSON and forwarding the message
    are outside the model: the parser is a function parameter and the
    forwarding outcome a parameter. */
module PlaudServer {
  import opened Wrappers
  import opened Text

  /** The payload fields the formatter reads. `entities` maps a field to its
      text (an absent `entities` is the empty map); `durationSeconds` is a
      whole number of seconds. */
  datatype Payload = Payload(
    callId: Option<string>,
    phoneNumber: Option<string>,
    transcript: Option<string>,
    summary: Option<string>,
    intent: Option<string>,
    entities: map<string, string>,
    durationSeconds: Option<nat>,
    outcome: Option<string>)

  const Header := "\U{1F399}\U{FE0F} **New PlauD.AI Call**\n\n"

  function Footer(callId: Option<string>): string {
    "\n_Call ID: " + Interp(callId) + "_"
  }

  /** JavaScript truthiness of an entity and of a duration. */
  predicate HasEntity(entities: map<string, string>, f: string) {
    f in entities && entities[f] != ""
  }

  predicate HasDuration(d: Option<nat>) {
    d.Some? && d.value != 0
  }

  /** `padStart(2, '0')`. */
  function PadTwo(s: string): (r: string)
    ensures |s| < 2 ==> |r| == 2
    ensures |s| >= 2 ==> r == s
    ensures EndsWith(r, s)
  {
    if |s| == 0 then "00" else if |s| == 1 then "0" + s else s
  }

  /** `m:ss` for a number of seconds. */
  function Duration(seconds: nat): string {
    NatToString(seconds / 60) + ":" + PadTwo(NatToString(seconds % 60))
  }

  /** Padding a number below 100 gives exactly two digits of the same value. */
  lemma PadTwoValue(n: nat)
    requires n < 100
    ensures |PadTwo(NatToString(n))| == 2
    ensures forall i :: 0 <= i < 2 ==> '0' <= PadTwo(NatToString(n))[i] <= '9'
    ensures DigitsValue(PadTwo(NatToString(n))) == n
  {
    var s := NatToString(n);
    NatToStringValue(n);
    if n < 10 {
      var t := PadTwo(s);
      assert t == ['0', Digit(n)];
      assert t[..1] == "0" && t[..1][..0] == [];
    } else {
      assert s == NatToString(n / 10) + [Digit(n % 10)];
      assert NatToString(n / 10) == [Digit(n / 10)];
    }
  }

  /** The duration reads back as whole minutes, a colon, and exactly two
      digits of remaining seconds. */
  lemma DurationFacts(seconds: nat)
    ensures var mins := NatToString(seconds / 60);
            var secs := PadTwo(NatToString(seconds % 60));
            Duration(seconds) == mins + ":" + secs
            && DigitsValue(mins) == seconds / 60
            && |secs| == 2 && '0' <= secs[0] <= '9' && '0' <= secs[1] <= '9'
            && DigitsValue(secs) == seconds % 60
  {
    var m := seconds / 60;
    var s := seconds % 60;
    assert s < 100;
    NatToStringValue(m);
    PadTwoValue(s);
  }

  /** The fields the Details section may list, in this order. */
  const EntityFields: seq<string> := ["email", "appointment_date", "company", "notes"]

  /** The listed fields that are present, in the order of `fields`. */
  function FoundEntities(entities: map<string, string>, fields: seq<string>): seq<string> {
    if fields == [] then []
    else (if HasEntity(entities, fields[0]) then [fields[0]] else []) + FoundEntities(entities, fields[1..])
  }

  /** `Object.keys`-style filter: the found fields are exactly the listed
      fields that are present, and no more of them than listed. */
  lemma {:induction false} FoundEntitiesFacts(entities: map<string, string>, fields: seq<string>)
    ensures |FoundEntities(entities, fields)| <= |fields|
    ensures forall f :: f in FoundEntities(entities, fields) <==> f in fields && HasEntity(entities, f)
  {
    if fields != [] {
      FoundEntitiesFacts(entities, fields[1..]);
      assert forall f :: f in fields <==> f == fields[0] || f in fields[1..];
    }
  }

  /** The text of a field; only called on fields that are present. */
  function ValueOf(entities: map<string, string>, f: string): string {
    if f in entities then entities[f] else ""
  }

  function Bullet(entities: map<string, string>, f: string): string {
    "• " + f + ": " + ValueOf(entities, f) + "\n"
  }

  /** One bullet line per found field, in order. */
  function Bullets(entities: map<string, string>, found: seq<string>): string {
    if found == [] then "" else Bullets(entities, found[..|found| - 1]) + Bullet(entities, found[|found| - 1])
  }

  lemma BulletStep(entities: map<string, string>, found: seq<string>, i: nat)
    requires i < |found|
    ensures Bullets(entities, found[..i + 1]) == Bullets(entities, found[..i]) + Bullet(entities, found[i])
  {
    assert found[..i + 1][..i] == found[..i];
  }

  /** The transcript as the message shows it. */
  function ShownTranscript(t: string): (r: string)
    ensures |t| <= 1500 ==> r == t
    ensures |t| > 1500 ==> r == t[..1500] + "... [truncated]" && |r| == 1515
  {
    if |t| > 1500 then t[..1500] + "... [truncated]" else t
  }

  /** A labelled line, or nothing when the value is missing or empty. */
  function Line(head: string, value: Option<string>): string {
    if Truthy(value) then head + value.value + "\n" else ""
  }

  lemma LineFacts(head: string, value: Option<string>)
    ensures Line(head, value) != "" <==> Truthy(value)
    ensures Truthy(value) ==> StartsWith(Line(head, value), head + value.value)
  {
    if Truthy(value) {
      var r := Line(head, value);
      assert r[..|head + value.value|] == head + value.value;
    }
  }

  function EntityValue(entities: map<string, string>, f: string): Option<string> {
    if f in entities then Some(entities[f]) else None
  }

  function DurationLine(d: Option<nat>): string {
    if HasDuration(d) then "**Duration:** " + Duration(d.value) + "\n" else ""
  }

  function SummarySection(summary: Option<string>): string {
    "\n**Summary:**\n" + Or(summary, "No summary provided") + "\n"
  }

  /** The Details heading and one bullet per present field, or nothing. */
  function DetailsSection(entities: map<string, string>, fields: seq<string>): string {
    var found := FoundEntities(entities, fields);
    if |found| > 0 then "\n**Details:**\n" + Bullets(entities, found) else ""
  }

  lemma DetailsFacts(entities: map<string, string>, fields: seq<string>)
    ensures DetailsSection(entities, fields) != "" <==> exists f :: f in fields && HasEntity(entities, f)
    ensures DetailsSection(entities, fields) != "" ==> StartsWith(DetailsSection(entities, fields), "\n**Details:**\n")
  {
    var found := FoundEntities(entities, fields);
    FoundEntitiesFacts(entities, fields);
    if |found| > 0 {
      assert found[0] in found;
      var r := DetailsSection(entities, fields);
      assert r[..|"\n**Details:**\n"|] == "\n**Details:**\n";
    } else {
      assert forall f :: f in fields && HasEntity(entities, f) ==> f in found;
    }
  }

  function TranscriptSection(transcript: Option<string>): string {
    if Truthy(transcript) then "\n**Transcript:**\n" + ShownTranscript(transcript.value) + "\n" else ""
  }

  /** The whole message, section by section: it always starts with the
      header and ends with the call id. */
  function Message(p: Payload): (m: string)
    ensures StartsWith(m, Header)
    ensures EndsWith(m, "\n_Call ID: " + Interp(p.callId) + "_")
  {
    var body := Header
      + Line("**From:** ", EntityValue(p.entities, "name"))
      + Line("**Number:** ", p.phoneNumber)
      + Line("**Intent:** ", p.intent)
      + Line("**Outcome:** ", p.outcome)
      + DurationLine(p.durationSeconds)
      + SummarySection(p.summary)
      + DetailsSection(p.entities, EntityFields)
      + TranscriptSection(p.transcript);
    var f := Footer(p.callId);
    assert (body + f)[|body|..] == f;
    assert Header <= body + f;
    body + f
  }

  /** The Details part of `formatMessage`: the heading, then one bullet per
      present field, appended only when some field is present. */
  method AppendDetails(message0: string, entities: map<string, string>, fields: seq<string>) returns (message: string)
    ensures message == message0 + DetailsSection(entities, fields)
  {
    message := message0;
    var found := FoundEntities(entities, fields);
    if |found| > 0 {
      message := message + "\n**Details:**\n";
      ghost var before := message;
      var i := 0;
      while i < |found|
        invariant i <= |found|
        invariant message == before + Bullets(entities, found[..i])
      {
        BulletStep(entities, found, i);
        AppendAssoc(before, Bullets(entities, found[..i]), Bullet(entities, found[i]));
        message := message + Bullet(entities, found[i]);
        i := i + 1;
      }
      assert found[..i] == found;
      AppendAssoc(message0, "\n**Details:**\n", Bullets(entities, found));
    }
  }

  /** One `if (value) message += ...` step of `formatMessage`. */
  method AppendLine(message0: string, head: string, value: Option<string>) returns (message: string)
    ensures message == message0 + Line(head, value)
  {
    message := message0;
    if Truthy(value) {
      message := message + (head + value.value + "\n");
    }
  }

  /** `formatMessage`: successive appends to the message. */
  method FormatMessage(p: Payload) returns (message: string)
    ensures message == Message(p)
  {
    message := Header;
    var name := if "name" in p.entities then Some(p.entities["name"]) else None;
    message := AppendLine(message, "**From:** ", name);
    message := AppendLine(message, "**Number:** ", p.phoneNumber);
    message := AppendLine(message, "**Intent:** ", p.intent);
    message := AppendLine(message, "**Outcome:** ", p.outcome);
    ghost var acc := message;
    if HasDuration(p.durationSeconds) {
      message := message + ("**Duration:** " + Duration(p.durationSeconds.value) + "\n");
    }
    assert message == acc + DurationLine(p.durationSeconds);
    message := message + ("\n**Summary:**\n" + Or(p.summary, "No summary provided") + "\n");
    message := AppendDetails(message, p.entities, EntityFields);
    acc := message;
    if Truthy(p.transcript) {
      message := message + ("\n**Transcript:**\n" + ShownTranscript(p.transcript.value) + "\n");
    }
    assert message == acc + TranscriptSection(p.transcript);
    message := message + Footer(p.callId);
  }

  // ---------------------------------------------------------------------
  // The request handler

  datatype Response = Response(status: nat, forwarded: Option<string>)

  /** `handleWebhook`. `parse` stands for `JSON.parse` (None when it throws)
      and `sendOk` for the outcome of forwarding. */
  function HandleWebhook(httpMethod: string, body: string, parse: string -> Option<Payload>, sendOk: bool): (r: Response)
    ensures httpMethod == "OPTIONS" ==> r == Response(200, None)
    ensures httpMethod != "OPTIONS" && httpMethod != "POST" ==> r == Response(405, None)
    ensures httpMethod == "POST" && parse(body).None? ==> r == Response(500, None)
    ensures httpMethod == "POST" && parse(body).Some? ==>
              r.forwarded == Some(Message(parse(body).value)) && r.status == (if sendOk then 200 else 500)
  {
    if httpMethod == "OPTIONS" then Response(200, None)
    else if httpMethod != "POST" then Response(405, None)
    else match parse(body)
      case None => Response(500, None)
      case Some(p) => Response(if sendOk then 200 else 500, Some(Message(p)))
  }
}
