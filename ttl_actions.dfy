/** The TTL bucket handler: whether a memo is actionable, whose it is, when
    its task is due, the note body, and which CRM calls are made in which
    order. The CRM calls and the memory file are outside the model: the
    contact search is a function parameter and the call outcomes are
    parameters. */
module TtlActions {
  import opened Wrappers
  import opened Text
  import opened Regex

  /** The two texts as a template literal joins them. */
  function Combined(summary: Option<string>, transcription: Option<string>): string {
    Interp(summary) + " " + Interp(transcription)
  }

  const DueWords: seq<string> := ["today", "tomorrow", "this week", "by", "deadline", "due"]

  /** The action indicators, in order; the text is lower-cased first. */
  const ActionPatterns: seq<Pattern> := [
    Words(["follow up", "followup", "follow-up"], true),
    Opaque("\\b(call|email|text|reach out|contact)\\s+(back|them|client|trina)"),
    Opaque("\\b(schedule|book|set up|arrange)\\s+(a?\\s?meeting|call|appointment)"),
    Opaque("\\b(send|draft|prepare|create)\\s+(proposal|contract|invoice|email)"),
    Opaque("\\b(need to|should|must|have to)\\s+\\w+"),
    Words(["don't forget", "remember to", "remind me"], true),
    Words(["urgent", "asap", "priority", "important"], true),
    Words(DueWords, true)]

  /** `isActionable`: some indicator matches the lower-cased text. The last
      indicator makes any memo with one of its words as a whole word, such
      as "by", "today" or "due", actionable. */
  predicate IsActionable(eng: Engine, summary: Option<string>, transcription: Option<string>)
    ensures (exists k, i :: 0 <= k < |DueWords| && WordAt(Lower(Combined(summary, transcription)), DueWords[k], i, true))
              ==> IsActionable(eng, summary, transcription)
  {
    WordsTest(eng, DueWords, true, Lower(Combined(summary, transcription)));
    assert ActionPatterns[7] == Words(DueWords, true);
    exists k | 0 <= k < |ActionPatterns| :: Test(eng, ActionPatterns[k], Lower(Combined(summary, transcription)))
  }

  const WithPattern := "(?:with|from|about|for)\\s+([A-Z][a-z]+(?:\\s+[A-Z][a-z]+)?)"

  /** `extractClientName`: the capitalised name after "with/from/about/for"
      wins; otherwise "Trina" as a word in any case names the default client. */
  function ExtractClientName(eng: Engine, summary: Option<string>, transcription: Option<string>): (r: Option<string>)
    ensures eng.first(WithPattern, Combined(summary, transcription)).Some? ==>
              r == Some(eng.first(WithPattern, Combined(summary, transcription)).value.group1)
    ensures eng.first(WithPattern, Combined(summary, transcription)).None? ==>
              (r.Some? <==> Test(eng, Words(["trina"], true), Combined(summary, transcription)))
              && (r.Some? ==> r == Some("Trina Fallardo"))
  {
    var combined := Combined(summary, transcription);
    match eng.first(WithPattern, combined)
    case Some(m) => Some(m.group1)
    case None => if Test(eng, Words(["trina"], true), combined) then Some("Trina Fallardo") else None
  }

  const DatePattern := "(?:by|on|before)\\s+(Monday|Tuesday|Wednesday|Thursday|Friday|Saturday|Sunday|\\d{1,2}(?:\\/|-)\\d{1,2})"

  /** `w` occurs as a whole word in the lower-cased text. */
  predicate Mentions(eng: Engine, w: string, summary: Option<string>, transcription: Option<string>) {
    Test(eng, Words([w], false), Lower(Combined(summary, transcription)))
  }

  /** `extractDueDate` as a number of days from today; `weekday` is today's
      day of the week, Sunday being 0. */
  function DueOffset(eng: Engine, summary: Option<string>, transcription: Option<string>, weekday: nat): (d: int)
    requires weekday < 7
    ensures -1 <= d <= 5
    // The first rule that applies decides.
    ensures Mentions(eng, "today", summary, transcription) ==> d == 0
    ensures !Mentions(eng, "today", summary, transcription) && Mentions(eng, "tomorrow", summary, transcription) ==> d == 1
    ensures (!Mentions(eng, "today", summary, transcription) && !Mentions(eng, "tomorrow", summary, transcription)
             && Mentions(eng, "this week", summary, transcription)) ==> d == 5 - weekday
    ensures (!Mentions(eng, "today", summary, transcription) && !Mentions(eng, "tomorrow", summary, transcription)
             && !Mentions(eng, "this week", summary, transcription)) ==>
              d == if eng.first(DatePattern, Lower(Combined(summary, transcription))).Some? then 2 else 3
  {
    if Mentions(eng, "today", summary, transcription) then 0
    else if Mentions(eng, "tomorrow", summary, transcription) then 1
    else if Mentions(eng, "this week", summary, transcription) then 5 - weekday
    else if eng.first(DatePattern, Lower(Combined(summary, transcription))).Some? then 2
    else 3
  }

  /** "this week" on a Saturday gives a due date in the past. */
  lemma ThisWeekOnSaturday(eng: Engine, summary: Option<string>, transcription: Option<string>)
    requires !Mentions(eng, "today", summary, transcription) && !Mentions(eng, "tomorrow", summary, transcription)
    requires Mentions(eng, "this week", summary, transcription)
    ensures DueOffset(eng, summary, transcription, 6) == -1
  {
  }

  /** The voice-memo data the handler reads. */
  datatype NoteData = NoteData(
    recordingId: Option<string>,
    timestamp: Option<string>,
    summary: Option<string>,
    transcription: Option<string>)

  /** The transcription as the note shows it: cut to 2000 characters, with
      "..." only when something was cut. */
  function TranscriptPart(transcription: Option<string>): (r: string)
    ensures !Truthy(transcription) ==> r == "N/A"
    ensures Truthy(transcription) && |transcription.value| <= 2000 ==> r == transcription.value
    ensures Truthy(transcription) && |transcription.value| > 2000 ==>
              |r| == 2003 && r[..2000] == transcription.value[..2000] && r[2000..] == "..."
  {
    if Truthy(transcription) then
      var t := transcription.value;
      Take(t, 2000) + (if |t| > 2000 then "..." else "")
    else "N/A"
  }

  /** The note body posted to the contact. */
  function NoteBody(data: NoteData): (r: string)
    ensures StartsWith(r, "**Voice Memo from Plaud**\n\n**Summary:**\n" + Or(data.summary, "N/A"))
    ensures EndsWith(r, "\n\n---\n*Added automatically via Plaud integration*")
  {
    var head := "**Voice Memo from Plaud**\n\n**Summary:**\n" + Or(data.summary, "N/A");
    var tail := "\n\n---\n*Added automatically via Plaud integration*";
    var middle := "\n\n**Transcription:**\n" + TranscriptPart(data.transcription)
      + "\n\n**Recording ID:** " + Interp(data.recordingId)
      + "\n**Timestamp:** " + Interp(data.timestamp);
    AppendAssoc(head, middle, tail);
    AppendEnds(head, middle + tail);
    AppendEnds(head + middle, tail);
    head + middle + tail
  }

  /** The task description: the recording id after a fixed label, a blank
      line, then the summary, or nothing without one. */
  function TaskDescription(data: NoteData): (r: string)
    ensures StartsWith(r, "From Plaud recording: " + Interp(data.recordingId) + "\n\n")
    ensures EndsWith(r, Or(data.summary, ""))
    ensures |r| == |"From Plaud recording: " + Interp(data.recordingId) + "\n\n"| + |Or(data.summary, "")|
  {
    var head := "From Plaud recording: " + Interp(data.recordingId) + "\n\n";
    AppendEnds(head, Or(data.summary, ""));
    head + Or(data.summary, "")
  }

  /** The task title: the first 100 characters of the summary, or the
      default when there is no summary. */
  function TaskTitle(summary: Option<string>): (r: string)
    ensures r != "" && |r| <= 100
    ensures Truthy(summary) ==> StartsWith(summary.value, r)
    ensures Truthy(summary) && |summary.value| <= 100 ==> r == summary.value
    ensures Truthy(summary) && |summary.value| > 100 ==> r == summary.value[..100]
    ensures !Truthy(summary) ==> r == "Follow up on voice memo"
  {
    if Truthy(summary) then Take(summary.value, 100) else "Follow up on voice memo"
  }

  /** A task request: title, description and due date in days from today. */
  datatype TaskRequest = TaskRequest(title: string, description: string, dueDays: int)

  datatype HandleResult = HandleResult(
    clientName: Option<string>,
    searches: seq<string>,
    contact: Option<string>,
    note: Option<string>,
    noteOk: bool,
    task: Option<TaskRequest>,
    taskOk: bool,
    actions: seq<string>)

  /** The contact searches: the extracted client first, then "Trina" when
      there is no client or the client is not found. */
  method FindContact(eng: Engine, data: NoteData, search: string -> Option<string>)
    returns (clientName: Option<string>, searches: seq<string>, contact: Option<string>)
    ensures clientName == ExtractClientName(eng, data.summary, data.transcription)
    ensures Truthy(clientName) && search(clientName.value).Some? ==>
              searches == [clientName.value] && contact == search(clientName.value)
    ensures !(Truthy(clientName) && search(clientName.value).Some?) ==>
              searches == (if Truthy(clientName) then [clientName.value] else []) + ["Trina"]
              && contact == search("Trina")
  {
    clientName := ExtractClientName(eng, data.summary, data.transcription);
    searches := [];
    contact := None;
    if Truthy(clientName) {
      contact := search(clientName.value);
      searches := searches + [clientName.value];
    }
    if contact.None? {
      contact := search("Trina");
      searches := searches + ["Trina"];
    }
  }

  /** `handle`. `search` stands for the CRM contact search (the id of its
      first hit); `noteSucceeds` and `taskSucceeds` are the outcomes of the
      calls when they are made. */
  method Handle(eng: Engine, data: NoteData, search: string -> Option<string>, weekday: nat,
                noteSucceeds: bool, taskSucceeds: bool)
    returns (res: HandleResult)
    requires weekday < 7
    ensures res.clientName == ExtractClientName(eng, data.summary, data.transcription)
    ensures Truthy(res.clientName) && search(res.clientName.value).Some? ==>
              res.searches == [res.clientName.value] && res.contact == search(res.clientName.value)
    ensures !(Truthy(res.clientName) && search(res.clientName.value).Some?) ==>
              res.searches == (if Truthy(res.clientName) then [res.clientName.value] else []) + ["Trina"]
              && res.contact == search("Trina")
    ensures res.note.Some? <==> res.contact.Some?
    ensures res.note.Some? ==> res.note.value == NoteBody(data)
    ensures res.task.Some? <==> res.contact.Some? && IsActionable(eng, data.summary, data.transcription)
    ensures res.task.Some? ==>
              res.task.value.title == TaskTitle(data.summary)
              && res.task.value.dueDays == DueOffset(eng, data.summary, data.transcription, weekday)
              && res.task.value.description == TaskDescription(data)
    ensures res.noteOk == (res.note.Some? && noteSucceeds)
    ensures res.taskOk == (res.task.Some? && taskSucceeds)
    ensures res.actions == ["Processed via TTL bucket"]
                           + (if res.noteOk then ["Added note to GHL"] else [])
                           + (if res.taskOk then ["Created GHL task"] else [])
  {
    var clientName, searches, contact := FindContact(eng, data, search);
    var note: Option<string> := None;
    var task: Option<TaskRequest> := None;
    var noteOk, taskOk := false, false;
    if contact.Some? {
      note, noteOk := Some(NoteBody(data)), noteSucceeds;
      if IsActionable(eng, data.summary, data.transcription) {
        var due := DueOffset(eng, data.summary, data.transcription, weekday);
        var title := TaskTitle(data.summary);
        var desc := TaskDescription(data);
        task, taskOk := Some(TaskRequest(title, desc, due)), taskSucceeds;
      }
    }
    // The action log, each entry pushed only when its call succeeded.
    var actions := ["Processed via TTL bucket"]
                   + (if noteOk then ["Added note to GHL"] else [])
                   + (if taskOk then ["Created GHL task"] else []);
    res := HandleResult(clientName, searches, contact, note, noteOk, task, taskOk, actions);
  }
}
