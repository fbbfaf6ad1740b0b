/** The PERSONAL bucket handler: the AppleScript string escaper, the
    extraction of action phrases, and the reminder and message texts it
    derives. Running AppleScript, sending the iMessage and writing the memory
    file are outside the model. */
module PersonalActions {
  import opened Wrappers
  import opened Text
  import opened Regex

  // ---------------------------------------------------------------------
  // AppleScript escaping

  /** `replace(/c/g, rep)`: every `c` replaced by `rep`. */
  function ReplaceChar(s: string, c: char, rep: string): (r: string)
    ensures c !in s ==> r == s
  {
    if s == [] then [] else (if s[0] == c then rep else [s[0]]) + ReplaceChar(s[1..], c, rep)
  }

  lemma {:induction false} ReplaceCharAppend(a: string, b: string, c: char, rep: string)
    ensures ReplaceChar(a + b, c, rep) == ReplaceChar(a, c, rep) + ReplaceChar(b, c, rep)
  {
    if a == [] {
      assert a + b == b;
    } else {
      assert (a + b)[0] == a[0];
      assert (a + b)[1..] == a[1..] + b;
      ReplaceCharAppend(a[1..], b, c, rep);
    }
  }

  /** The chain of five global replacements, backslashes first, as
      `escapeAppleScript` writes it. */
  function ReplaceChain(s: string): string {
    var s1 := ReplaceChar(s, '\\', "\\\\");
    var s2 := ReplaceChar(s1, '"', "\\\"");
    var s3 := ReplaceChar(s2, '\n', "\\n");
    var s4 := ReplaceChar(s3, '\r', "\\r");
    ReplaceChar(s4, '\t', "\\t")
  }

  predicate IsSpecial(c: char) {
    c == '\\' || c == '"' || c == '\n' || c == '\r' || c == '\t'
  }

  /** The escape of one character. */
  function EscapeChar(c: char): (r: string)
    ensures IsSpecial(c) ==> |r| == 2 && r[0] == '\\'
    ensures !IsSpecial(c) ==> r == [c]
  {
    match c
    case '\\' => "\\\\"
    case '"' => "\\\""
    case '\n' => "\\n"
    case '\r' => "\\r"
    case '\t' => "\\t"
    case _ => [c]
  }

  /** The same escaping as one left-to-right pass over the characters. */
  function EscapeOnePass(s: string): string {
    if s == [] then [] else EscapeChar(s[0]) + EscapeOnePass(s[1..])
  }

  lemma EscapeAppend(a: string, b: string)
    ensures ReplaceChain(a + b) == ReplaceChain(a) + ReplaceChain(b)
  {
    ReplaceCharAppend(a, b, '\\', "\\\\");
    var a1, b1 := ReplaceChar(a, '\\', "\\\\"), ReplaceChar(b, '\\', "\\\\");
    ReplaceCharAppend(a1, b1, '"', "\\\"");
    var a2, b2 := ReplaceChar(a1, '"', "\\\""), ReplaceChar(b1, '"', "\\\"");
    ReplaceCharAppend(a2, b2, '\n', "\\n");
    var a3, b3 := ReplaceChar(a2, '\n', "\\n"), ReplaceChar(b2, '\n', "\\n");
    ReplaceCharAppend(a3, b3, '\r', "\\r");
    var a4, b4 := ReplaceChar(a3, '\r', "\\r"), ReplaceChar(b3, '\r', "\\r");
    ReplaceCharAppend(a4, b4, '\t', "\\t");
  }

  /** On a one-character string: `rep` when it is `d`, else unchanged. */
  lemma ReplaceSingle(c: char, d: char, rep: string)
    ensures ReplaceChar([c], d, rep) == if c == d then rep else [c]
  {
    assert [c][1..] == [];
  }

  /** On one character the chain is that character's escape. */
  lemma EscapeOneChar(c: char)
    ensures ReplaceChain([c]) == EscapeChar(c)
  {
    ReplaceSingle(c, '\\', "\\\\");
    if c != '\\' {
      ReplaceSingle(c, '"', "\\\"");
      if c != '"' {
        ReplaceSingle(c, '\n', "\\n");
        if c != '\n' {
          ReplaceSingle(c, '\r', "\\r");
          if c != '\r' {
            ReplaceSingle(c, '\t', "\\t");
          }
        }
      }
    }
  }

  /** Backslashes go first, so no escape introduced by a later step is
      escaped again: the chain is the one-pass escape. */
  lemma {:induction false} ChainIsOnePass(s: string)
    ensures ReplaceChain(s) == EscapeOnePass(s)
  {
    if s != [] {
      assert s == [s[0]] + s[1..];
      EscapeAppend([s[0]], s[1..]);
      EscapeOneChar(s[0]);
      ChainIsOnePass(s[1..]);
    }
  }

  /** How AppleScript reads the escapes of a string literal back. */
  function Unescape(s: string): string {
    if s == [] then []
    else if s[0] == '\\' && |s| >= 2 then
      [match s[1] case 'n' => '\n' case 'r' => '\r' case 't' => '\t' case c => c] + Unescape(s[2..])
    else [s[0]] + Unescape(s[1..])
  }

  /** The number of characters the escaper doubles. */
  function SpecialCount(s: string): (n: nat)
    ensures n <= |s|
  {
    if s == [] then 0 else (if IsSpecial(s[0]) then 1 else 0) + SpecialCount(s[1..])
  }

  /** Reading the one-pass escape back gives the original. */
  lemma {:induction false} OnePassRoundTrip(s: string)
    ensures Unescape(EscapeOnePass(s)) == s
  {
    if s != [] {
      OnePassRoundTrip(s[1..]);
      var e := EscapeChar(s[0]);
      var rest := EscapeOnePass(s[1..]);
      if IsSpecial(s[0]) {
        assert (e + rest)[2..] == rest;
      } else {
        assert (e + rest)[1..] == rest;
      }
    }
  }

  /** The one-pass escape grows by one character per special character and
      holds no raw newline, carriage return or tab. */
  lemma {:induction false} OnePassShape(s: string)
    ensures |EscapeOnePass(s)| == |s| + SpecialCount(s)
    ensures forall i :: 0 <= i < |EscapeOnePass(s)| ==>
              EscapeOnePass(s)[i] != '\n' && EscapeOnePass(s)[i] != '\r' && EscapeOnePass(s)[i] != '\t'
    ensures SpecialCount(s) == 0 ==> EscapeOnePass(s) == s
  {
    if s != [] {
      OnePassShape(s[1..]);
      var e := EscapeChar(s[0]);
      var rest := EscapeOnePass(s[1..]);
      assert EscapeOnePass(s) == e + rest;
      assert forall i :: 0 <= i < |e| ==> e[i] != '\n' && e[i] != '\r' && e[i] != '\t';
    }
  }

  /** `escapeAppleScript`. Reading the escaped string back gives the
      original; the output is one character longer per special character; it
      holds no raw newline, carriage return or tab; a string without special
      characters is kept. */
  function EscapeAppleScript(s: string): (r: string)
    ensures Unescape(r) == s
    ensures |r| == |s| + SpecialCount(s)
    ensures forall i :: 0 <= i < |r| ==> r[i] != '\n' && r[i] != '\r' && r[i] != '\t'
    ensures SpecialCount(s) == 0 ==> r == s
  {
    ChainIsOnePass(s);
    OnePassRoundTrip(s);
    OnePassShape(s);
    ReplaceChain(s)
  }

  // ---------------------------------------------------------------------
  // Action phrases

  /** The global action patterns, in order; the text is lower-cased first. */
  const ActionPatterns: seq<string> := [
    "\\b(remind me to|remember to|don't forget to|need to|should|must)\\s+(.+?)(?:\\.|$|\\n)",
    "\\b(call|text|email|message|reach out to)\\s+(.+?)(?:\\.|$|\\n)",
    "\\b(buy|get|pick up|order)\\s+(.+?)(?:\\.|$|\\n)",
    "\\b(schedule|book|make an? appointment|set up)\\s+(.+?)(?:\\.|$|\\n)"]

  /** Each match trimmed, in order. */
  function TrimAll(ms: seq<string>): seq<string> {
    if ms == [] then [] else TrimAll(ms[..|ms| - 1]) + [Trim(ms[|ms| - 1])]
  }

  lemma TrimAllStep(ms: seq<string>, j: nat)
    requires j < |ms|
    ensures TrimAll(ms[..j + 1]) == TrimAll(ms[..j]) + [Trim(ms[j])]
  {
    assert ms[..j + 1][..j] == ms[..j];
  }

  /** The trimmed matches of the first `n` patterns, all matches of one
      pattern before those of the next. */
  function Found(eng: Engine, text: string, n: nat): seq<string>
    requires n <= |ActionPatterns|
  {
    if n == 0 then [] else Found(eng, text, n - 1) + TrimAll(eng.all(ActionPatterns[n - 1], text))
  }

  /** The extracted actions, or the one default action. */
  function Actions(eng: Engine, text: string): (r: seq<string>)
    ensures r != []
    ensures Found(eng, text, |ActionPatterns|) == [] ==> r == ["Review voice memo"]
    ensures Found(eng, text, |ActionPatterns|) != [] ==> r == Found(eng, text, |ActionPatterns|)
  {
    var found := Found(eng, text, |ActionPatterns|);
    if |found| > 0 then found else ["Review voice memo"]
  }

  /** The matches of pattern 1 come first, those of pattern 2 next, and so
      on: the list splits into one block per pattern. */
  lemma {:induction false} FoundGrouped(eng: Engine, text: string, n: nat, k: nat)
    requires k <= n <= |ActionPatterns|
    ensures Found(eng, text, k) <= Found(eng, text, n)
    decreases n
  {
    if n > k {
      FoundGrouped(eng, text, n - 1, k);
    }
  }

  /** One pattern's `exec` loop: each match, trimmed, is pushed in turn. */
  method PushTrimmed(actions0: seq<string>, matches: seq<string>) returns (actions: seq<string>)
    ensures actions == actions0 + TrimAll(matches)
  {
    actions := actions0;
    var j := 0;
    while j < |matches|
      invariant j <= |matches|
      invariant actions == actions0 + TrimAll(matches[..j])
    {
      TrimAllStep(matches, j);
      actions := actions + [Trim(matches[j])];
      j := j + 1;
    }
    assert matches[..j] == matches;
  }

  /** `extractActionable`: each pattern's `exec` loop in turn. */
  method ExtractActionable(eng: Engine, summary: Option<string>, transcription: Option<string>)
    returns (actions: seq<string>)
    ensures actions == Actions(eng, Lower(Interp(summary) + " " + Interp(transcription)))
  {
    var combined := Lower(Interp(summary) + " " + Interp(transcription));
    actions := [];
    for p := 0 to |ActionPatterns|
      invariant actions == Found(eng, combined, p)
    {
      actions := PushTrimmed(actions, eng.all(ActionPatterns[p], combined));
    }
    if |actions| == 0 {
      actions := ["Review voice memo"];
    }
  }

  // ---------------------------------------------------------------------
  // The handler

  datatype NoteData = NoteData(
    recordingId: Option<string>,
    timestamp: Option<string>,
    summary: Option<string>,
    transcription: Option<string>)

  /** The reminder request; the AppleScript sees every field escaped. */
  datatype Reminder = Reminder(title: string, notes: string, listName: string)

  /** The reminder title: the first action (never empty in practice), or the default. */
  function ReminderTitle(actions: seq<string>): (r: string)
    requires actions != []
    ensures actions[0] != "" ==> r == actions[0]
    ensures actions[0] == "" ==> r == "Review voice memo"
  {
    if actions[0] != "" then actions[0] else "Review voice memo"
  }

  /** The reminder notes: the summary, else the transcription, else nothing. */
  function ReminderNotes(data: NoteData): (r: string)
    ensures var head := "From Plaud recording (" + Interp(data.recordingId) + "):\n\n";
            StartsWith(r, head)
            && r[|head|..] == (if Truthy(data.summary) then data.summary.value
                               else if Truthy(data.transcription) then data.transcription.value
                               else "")
  {
    var head := "From Plaud recording (" + Interp(data.recordingId) + "):\n\n";
    var r := head + Or(data.summary, Or(data.transcription, ""));
    assert r[..|head|] == head;
    r
  }

  /** The iMessage body: the title, then the summary cut to 200 characters
      with "..." when it was longer, or a fixed text without a summary. */
  function MessageText(title: string, summary: Option<string>): (r: string)
    ensures var head := "\U{1F4DD} Voice Memo: " + title + "\n\n";
            StartsWith(r, head)
            && (!Truthy(summary) ==> r[|head|..] == "No summary available")
            && (Truthy(summary) && |summary.value| <= 200 ==> r[|head|..] == summary.value)
            && (Truthy(summary) && |summary.value| > 200 ==>
                  r[|head|..] == summary.value[..200] + "...")
  {
    var head := "\U{1F4DD} Voice Memo: " + title + "\n\n";
    var body := if Truthy(summary) then Take(summary.value, 200) else "No summary available";
    var more := if summary.Some? && |summary.value| > 200 then "..." else "";
    var r := head + body + more;
    assert r[..|head|] == head;
    assert r[|head|..] == body + more;
    r
  }

  datatype HandleResult = HandleResult(reminder: Reminder, message: string)

  /** `handle`: the reminder and the message it asks for. */
  method Handle(eng: Engine, data: NoteData) returns (res: HandleResult)
    ensures var actions := Actions(eng, Lower(Interp(data.summary) + " " + Interp(data.transcription)));
            res.reminder == Reminder(ReminderTitle(actions), ReminderNotes(data), "Reminders")
            && res.message == MessageText(ReminderTitle(actions), data.summary)
  {
    var actions := ExtractActionable(eng, data.summary, data.transcription);
    var title := ReminderTitle(actions);
    var reminder := Reminder(title, ReminderNotes(data), "Reminders");
    res := HandleResult(reminder, MessageText(title, data.summary));
  }
}
