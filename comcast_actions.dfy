/** The COMCAST bucket handler: package and interest detection, business
    name and address extraction, the CRM query and update it builds, the
    follow-up task and the order of its side effects. The database, the task
    service and the memory file are outside the model: their outcomes are
    parameters. */
module ComcastActions {
  import opened Wrappers
  import opened Text
  import opened Regex

  /** The package table, in declaration order. Its text is lower-cased first. */
  const PackageTable: seq<(string, Pattern)> := [
    ("Triple Play", Opaque("\\b(triple play|all three|internet.*tv.*phone|bundle)\\b")),
    ("Double Play", Opaque("\\b(double play|internet.*tv|tv.*internet|two services)\\b")),
    ("Internet Only", Words(["just internet", "internet only", "single play", "only internet"], true)),
    ("TV Only", Words(["just tv", "tv only", "television only", "cable only"], true)),
    ("Phone Only", Words(["just phone", "phone only", "voice only", "business phone"], true)),
    ("Gigabit", Words(["gigabit", "gig", "1gb", "high speed", "fast internet"], true)),
    ("Business Internet", Words(["business internet", "b2b internet", "commercial internet"], true))]

  const HotWords: seq<string> := ["interested", "want", "ready", "sign up", "yes", "definitely", "absolutely", "lets do it"]

  /** The interest levels, tried in this order. */
  const InterestTable: seq<(string, Pattern)> := [
    ("Hot Lead", Words(HotWords, true)),
    ("Warm Lead", Words(["considering", "thinking about", "maybe", "possibly", "price", "cost", "how much"], true)),
    ("Cold Lead", Words(["not interested", "no", "already have", "under contract", "maybe later"], true))]

  /** The package names are pairwise different. */
  lemma PackageNamesDistinct()
    ensures DistinctNames(PackageTable)
  {
  }

  /** The two texts as a template literal joins them. */
  function Combined(summary: Option<string>, transcription: Option<string>): string {
    Interp(summary) + " " + Interp(transcription)
  }

  /** Which rows of a table have a pattern that matches the text. */
  function Matches(eng: Engine, table: seq<(string, Pattern)>, text: string): (flags: seq<bool>)
    ensures |flags| == |table|
  {
    if table == [] then []
    else Matches(eng, table[..|table| - 1], text) + [Test(eng, table[|table| - 1].1, text)]
  }

  lemma {:induction false} MatchesAt(eng: Engine, table: seq<(string, Pattern)>, text: string, k: nat)
    requires k < |table|
    ensures Matches(eng, table, text)[k] == Test(eng, table[k].1, text)
    decreases |table|
  {
    if k < |table| - 1 {
      var front := table[..|table| - 1];
      MatchesAt(eng, front, text, k);
      assert front[k] == table[k];
    }
  }

  /** The positions, below `n`, of the set flags, in increasing order. */
  function RowHits(flags: seq<bool>, n: nat): (ix: seq<nat>)
    requires n <= |flags|
    ensures forall i :: 0 <= i < |ix| ==> ix[i] < n
  {
    if n == 0 then []
    else RowHits(flags, n - 1) + (if flags[n - 1] then [n - 1] else [])
  }

  /** Every listed position has its flag set. */
  lemma {:induction false} RowHitsFlagged(flags: seq<bool>, n: nat)
    requires n <= |flags|
    ensures forall i :: 0 <= i < |RowHits(flags, n)| ==> flags[RowHits(flags, n)[i]]
    decreases n
  {
    if n > 0 {
      RowHitsFlagged(flags, n - 1);
    }
  }

  /** The positions are listed in increasing order. */
  lemma {:induction false} RowHitsSorted(flags: seq<bool>, n: nat)
    requires n <= |flags|
    ensures forall i, j :: 0 <= i < j < |RowHits(flags, n)| ==> RowHits(flags, n)[i] < RowHits(flags, n)[j]
    decreases n
  {
    if n > 0 && flags[n - 1] {
      RowHitsSorted(flags, n - 1);
      var prev := RowHits(flags, n - 1);
      var ix := RowHits(flags, n);
      forall i, j | 0 <= i < j < |ix|
        ensures ix[i] < ix[j]
      {
        assert ix[i] == prev[i];
        if j < |prev| {
          assert ix[j] == prev[j];
        }
      }
    } else if n > 0 {
      RowHitsSorted(flags, n - 1);
    }
  }

  /** Every position below `n` whose flag is set is listed. */
  lemma {:induction false} RowHitsComplete(flags: seq<bool>, n: nat)
    requires n <= |flags|
    ensures forall k :: 0 <= k < n && flags[k] ==> k in RowHits(flags, n)
    decreases n
  {
    if n > 0 {
      RowHitsComplete(flags, n - 1);
      var prev := RowHits(flags, n - 1);
      var ix := RowHits(flags, n);
      assert ix[..|prev|] == prev;
      forall k | 0 <= k < n && flags[k]
        ensures k in ix
      {
        if k < n - 1 {
          assert k in ix[..|prev|];
        } else {
          assert ix[|prev|] == k;
        }
      }
    }
  }

  /** The names of the given rows. */
  function NamesAt(table: seq<(string, Pattern)>, ix: seq<nat>): (r: seq<string>)
    requires forall i :: 0 <= i < |ix| ==> ix[i] < |table|
    ensures |r| == |ix|
  {
    if ix == [] then [] else NamesAt(table, ix[..|ix| - 1]) + [table[ix[|ix| - 1]].0]
  }

  lemma {:induction false} NamesAtIndex(table: seq<(string, Pattern)>, ix: seq<nat>)
    requires forall i :: 0 <= i < |ix| ==> ix[i] < |table|
    ensures forall i :: 0 <= i < |ix| ==> NamesAt(table, ix)[i] == table[ix[i]].0
    decreases |ix|
  {
    if ix != [] {
      var front := ix[..|ix| - 1];
      NamesAtIndex(table, front);
      forall i | 0 <= i < |ix|
        ensures NamesAt(table, ix)[i] == table[ix[i]].0
      {
        if i < |front| {
          assert ix[i] == front[i];
        }
      }
    }
  }

  lemma NamesAtSnoc(table: seq<(string, Pattern)>, ix: seq<nat>, k: nat)
    requires forall i :: 0 <= i < |ix| ==> ix[i] < |table|
    requires k < |table|
    ensures NamesAt(table, ix + [k]) == NamesAt(table, ix) + [table[k].0]
  {
    assert (ix + [k])[..|ix|] == ix;
  }

  /** The names of all rows whose pattern matches, in table order. */
  function Mentions(eng: Engine, table: seq<(string, Pattern)>, text: string): seq<string> {
    NamesAt(table, RowHits(Matches(eng, table, text), |table|))
  }

  /** The names of a table are pairwise different. */
  predicate DistinctNames(table: seq<(string, Pattern)>) {
    forall i, j :: 0 <= i < j < |table| ==> table[i].0 != table[j].0
  }

  /** A name is listed exactly when its row's pattern matches. */
  lemma MentionsMembership(eng: Engine, table: seq<(string, Pattern)>, text: string)
    requires DistinctNames(table)
    ensures forall k :: 0 <= k < |table| ==>
              (table[k].0 in Mentions(eng, table, text) <==> Test(eng, table[k].1, text))
  {
    var flags := Matches(eng, table, text);
    var ix := RowHits(flags, |table|);
    var r := Mentions(eng, table, text);
    RowHitsFlagged(flags, |table|);
    RowHitsComplete(flags, |table|);
    NamesAtIndex(table, ix);
    forall k | 0 <= k < |table|
      ensures table[k].0 in r <==> Test(eng, table[k].1, text)
    {
      MatchesAt(eng, table, text, k);
      if table[k].0 in r {
        var i :| 0 <= i < |ix| && r[i] == table[k].0;
        NameRow(table, ix[i], k);
      }
      if flags[k] {
        assert k in ix;
        var i :| 0 <= i < |ix| && ix[i] == k;
        assert r[i] == table[k].0;
      }
    }
  }

  /** A name of the table belongs to one row only. */
  lemma NameRow(table: seq<(string, Pattern)>, x: nat, a: nat)
    requires DistinctNames(table)
    requires x < |table| && a < |table| && table[x].0 == table[a].0
    ensures x == a
  {
  }

  /** No name is listed twice. */
  lemma MentionsDistinct(eng: Engine, table: seq<(string, Pattern)>, text: string)
    requires DistinctNames(table)
    ensures forall i, j :: 0 <= i < j < |Mentions(eng, table, text)| ==> Mentions(eng, table, text)[i] != Mentions(eng, table, text)[j]
  {
    var flags := Matches(eng, table, text);
    var ix := RowHits(flags, |table|);
    var r := Mentions(eng, table, text);
    RowHitsSorted(flags, |table|);
    NamesAtIndex(table, ix);
    forall i, j | 0 <= i < j < |r|
      ensures r[i] != r[j]
    {
      if r[i] == r[j] {
        NameRow(table, ix[i], ix[j]);
        assert false;
      }
    }
  }

  /** Each listed name comes from a row after the row of every name listed
      before it. */
  lemma MentionsOrder(eng: Engine, table: seq<(string, Pattern)>, text: string)
    requires DistinctNames(table)
    ensures forall i, j, a, b ::
              (0 <= i < j < |Mentions(eng, table, text)| && 0 <= a < |table| && 0 <= b < |table|
               && Mentions(eng, table, text)[i] == table[a].0 && Mentions(eng, table, text)[j] == table[b].0) ==> a < b
  {
    var flags := Matches(eng, table, text);
    var ix := RowHits(flags, |table|);
    var r := Mentions(eng, table, text);
    RowHitsSorted(flags, |table|);
    NamesAtIndex(table, ix);
    forall i, j, a, b | 0 <= i < j < |r| && 0 <= a < |table| && 0 <= b < |table| && r[i] == table[a].0 && r[j] == table[b].0
      ensures a < b
    {
      NameRow(table, ix[i], a);
      NameRow(table, ix[j], b);
    }
  }

  /** The package list of a text: the names of the package table are
      distinct, so each package appears at most once, exactly when its pattern
      matches, in declaration order. */
  lemma PackagesFacts(eng: Engine, text: string)
    ensures forall i, j :: 0 <= i < j < |Mentions(eng, PackageTable, text)| ==>
              Mentions(eng, PackageTable, text)[i] != Mentions(eng, PackageTable, text)[j]
    ensures forall k :: 0 <= k < |PackageTable| ==>
              (PackageTable[k].0 in Mentions(eng, PackageTable, text) <==> Test(eng, PackageTable[k].1, text))
    ensures forall i, j, a, b ::
              (0 <= i < j < |Mentions(eng, PackageTable, text)| && 0 <= a < |PackageTable| && 0 <= b < |PackageTable|
               && Mentions(eng, PackageTable, text)[i] == PackageTable[a].0
               && Mentions(eng, PackageTable, text)[j] == PackageTable[b].0) ==> a < b
  {
    PackageNamesDistinct();
    MentionsMembership(eng, PackageTable, text);
    MentionsDistinct(eng, PackageTable, text);
    MentionsOrder(eng, PackageTable, text);
  }

  /** No interest pattern in positions `from` up to `to` matches. */
  predicate NoLevelBetween(eng: Engine, text: string, from: nat, to: nat)
    requires to <= |InterestTable|
  {
    forall j :: from <= j < to ==> !Test(eng, InterestTable[j].1, text)
  }

  /** The first interest level at or after position `from` whose pattern
      matches: "Unknown" exactly when no pattern matches, and otherwise the
      level of the first row that does. */
  function InterestFrom(eng: Engine, text: string, from: nat): (r: string)
    requires from <= |InterestTable|
    ensures r == "Unknown" <==> NoLevelBetween(eng, text, from, |InterestTable|)
    ensures r != "Unknown" ==>
              exists k :: (from <= k < |InterestTable| && InterestTable[k].0 == r
                           && Test(eng, InterestTable[k].1, text) && NoLevelBetween(eng, text, from, k))
    decreases |InterestTable| - from
  {
    if from == |InterestTable| then "Unknown"
    else if Test(eng, InterestTable[from].1, text) then InterestTable[from].0
    else InterestFrom(eng, text, from + 1)
  }

  function Interest(eng: Engine, text: string): string {
    InterestFrom(eng, text, 0)
  }

  datatype PackageInfo = PackageInfo(packages: seq<string>, interestLevel: string)

  /** One more row examined: its name is appended when its pattern matches. */
  lemma MentionsStep(eng: Engine, table: seq<(string, Pattern)>, text: string, k: nat)
    requires k < |table|
    ensures NamesAt(table, RowHits(Matches(eng, table, text), k + 1))
            == NamesAt(table, RowHits(Matches(eng, table, text), k)) + (if Test(eng, table[k].1, text) then [table[k].0] else [])
  {
    var flags := Matches(eng, table, text);
    var hits := RowHits(flags, k);
    MatchesAt(eng, table, text, k);
    if flags[k] {
      NamesAtSnoc(table, hits, k);
    } else {
      assert RowHits(flags, k + 1) == hits;
    }
  }

  /** The loop over a pattern table that collects the names of the rows
      whose pattern matches. */
  method MatchingNames(eng: Engine, table: seq<(string, Pattern)>, text: string) returns (names: seq<string>)
    ensures names == Mentions(eng, table, text)
  {
    names := [];
    for k := 0 to |table|
      invariant names == NamesAt(table, RowHits(Matches(eng, table, text), k))
    {
      MentionsStep(eng, table, text, k);
      if Test(eng, table[k].1, text) {
        names := names + [table[k].0];
      }
    }
  }

  /** `extractPackageMentions`. */
  method ExtractPackageMentions(eng: Engine, summary: Option<string>, transcription: Option<string>)
    returns (info: PackageInfo)
    ensures info.packages == Mentions(eng, PackageTable, Lower(Combined(summary, transcription)))
    ensures info.interestLevel == Interest(eng, Lower(Combined(summary, transcription)))
  {
    var combined := Lower(Combined(summary, transcription));
    var packages := MatchingNames(eng, PackageTable, combined);
    var level := "Unknown";
    var k := 0;
    while k < |InterestTable|
      invariant k <= |InterestTable|
      invariant InterestFrom(eng, combined, 0) == InterestFrom(eng, combined, k)
      decreases |InterestTable| - k
    {
      if Test(eng, InterestTable[k].1, combined) {
        level := InterestTable[k].0;
        break;
      }
      k := k + 1;
    }
    info := PackageInfo(packages, level);
  }

  /** "not interested" as a phrase also holds "interested" as a whole word,
      so such a text is a hot lead. */
  lemma NotInterestedIsHot(eng: Engine, text: string, i: nat)
    requires WordAt(text, "not interested", i, true)
    ensures Interest(eng, text) == "Hot Lead"
  {
    var w := "interested";
    assert text[i + 4..i + 14] == text[i..i + 14][4..];
    assert Lower(text[i + 4..i + 14]) == Lower(text[i..i + 14])[4..];
    assert LowerChar(text[i + 3]) == ' ';
    assert LowerChar(text[i + 4]) == 'i';
    assert WordAt(text, HotWords[0], i + 4, true);
    WordsMatch(eng, HotWords, true, text, 0, i + 4);
  }

  // ---------------------------------------------------------------------
  // Business name and address

  const BusinessPatterns: seq<string> := [
    "(?:at|visited|stopped by|saw)\\s+([A-Z][a-zA-Z]+(?:\\s+[A-Z][a-zA-Z]+)*(?:\\s+(?:Pizza|Cafe|Restaurant|Shop|Store|Salon|Dental|Auto|Repair|LLC|Inc|Co)))",
    "\\b([A-Z][a-zA-Z]+(?:\\s+[A-Z][a-zA-Z]+)*\\s+(?:on|at|near)\\s+\\d+(?:th|st|nd|rd)?\\s+(?:Ave|St|Blvd|Way|Dr))\\b",
    "\\b([A-Z][a-zA-Z]+(?:\\s+[A-Z][a-zA-Z]+)*(?:\\s+Pizza|\\s+Cafe|\\s+Restaurant|\\s+Shop))\\b"]

  const AddressPattern := "\\b(\\d+\\s+[A-Za-z]+(?:\\s+[A-Za-z]+)*(?:\\s+(?:Ave|St|Blvd|Way|Dr|Rd|Ln|Ct))\\b)"
  const CrossPattern := "\\b(corner of|intersection of)\\s+([A-Za-z]+\\s+(?:and|&)\\s+[A-Za-z]+)"

  /** None of the patterns in positions `from` up to `to` matches. */
  predicate NoMatchBetween(eng: Engine, pats: seq<string>, text: string, from: nat, to: nat)
    requires to <= |pats|
  {
    forall j :: from <= j < to ==> eng.first(pats[j], text).None?
  }

  /** The position of the first pattern at or after `from` that matches,
      or `|pats|` when none does. */
  function FirstMatchAt(eng: Engine, pats: seq<string>, text: string, from: nat): (k: nat)
    requires from <= |pats|
    ensures from <= k <= |pats| && NoMatchBetween(eng, pats, text, from, k)
    ensures k < |pats| ==> eng.first(pats[k], text).Some?
    decreases |pats| - from
  {
    if from == |pats| || eng.first(pats[from], text).Some? then from
    else FirstMatchAt(eng, pats, text, from + 1)
  }

  /** The trimmed first capture of the first pattern at or after `from` that
      matches: no capture exactly when no pattern matches. */
  function FirstCapture(eng: Engine, pats: seq<string>, text: string, from: nat): (r: Option<string>)
    requires from <= |pats|
    ensures r.None? <==> NoMatchBetween(eng, pats, text, from, |pats|)
    ensures r.Some? ==>
              FirstMatchAt(eng, pats, text, from) < |pats|
              && r.value == Trim(eng.first(pats[FirstMatchAt(eng, pats, text, from)], text).value.group1)
    decreases |pats| - from
  {
    if from == |pats| then None
    else if eng.first(pats[from], text).Some? then
      assert NoMatchBetween(eng, pats, text, from, from);
      Some(Trim(eng.first(pats[from], text).value.group1))
    else
      FirstCapture(eng, pats, text, from + 1)
  }

  /** `extractBusinessName`: case-sensitive patterns on the untouched text;
      `null` when none of them matches, otherwise the trimmed capture of the
      first one that does. */
  function ExtractBusinessName(eng: Engine, summary: Option<string>, transcription: Option<string>): (r: Option<string>)
    ensures r.None? <==> NoMatchBetween(eng, BusinessPatterns, Combined(summary, transcription), 0, |BusinessPatterns|)
    ensures r.Some? ==>
              var k := FirstMatchAt(eng, BusinessPatterns, Combined(summary, transcription), 0);
              k < |BusinessPatterns|
              && r.value == Trim(eng.first(BusinessPatterns[k], Combined(summary, transcription)).value.group1)
  {
    FirstCapture(eng, BusinessPatterns, Combined(summary, transcription), 0)
  }

  /** `extractAddress`: a street address (its capture) wins over a corner or
      intersection (the whole match). */
  function ExtractAddress(eng: Engine, summary: Option<string>, transcription: Option<string>): (r: Option<string>)
    ensures r.None? <==> eng.first(AddressPattern, Combined(summary, transcription)).None?
                         && eng.first(CrossPattern, Combined(summary, transcription)).None?
    ensures eng.first(AddressPattern, Combined(summary, transcription)).Some? ==>
              r == Some(eng.first(AddressPattern, Combined(summary, transcription)).value.group1)
    ensures eng.first(AddressPattern, Combined(summary, transcription)).None? && r.Some? ==>
              r == Some(eng.first(CrossPattern, Combined(summary, transcription)).value.whole)
  {
    var text := Combined(summary, transcription);
    match eng.first(AddressPattern, text)
    case Some(m) => Some(m.group1)
    case None =>
      match eng.first(CrossPattern, text)
      case Some(m) => Some(m.whole)
      case None => None
  }

  // ---------------------------------------------------------------------
  // The CRM query and update

  /** The contact query: a case-insensitive pattern on one field, or none. */
  datatype Query = ByBusinessName(name: string) | ByAddress(address: string) | AnyContact

  function ContactQuery(businessName: Option<string>, address: Option<string>): (q: Query)
    ensures Truthy(businessName) ==> q == ByBusinessName(businessName.value)
    ensures !Truthy(businessName) && Truthy(address) ==> q == ByAddress(address.value)
    ensures !Truthy(businessName) && !Truthy(address) ==> q == AnyContact
  {
    if Truthy(businessName) then ByBusinessName(businessName.value)
    else if Truthy(address) then ByAddress(address.value)
    else AnyContact
  }

  /** The note pushed onto the contact. */
  datatype CrmNote = CrmNote(
    recordingId: Option<string>,
    timestamp: Option<string>,
    summary: Option<string>,
    transcription: Option<string>,
    packages: seq<string>,
    interestLevel: string)

  /** The update of one contact: the note pushed, the packages added to the
      set (when any), and the status set (when any). */
  datatype CrmUpdate = CrmUpdate(push: CrmNote, addPackages: Option<seq<string>>, setStatus: Option<string>)

  /** The voice-memo data the handler reads. */
  datatype NoteData = NoteData(
    recordingId: Option<string>,
    timestamp: Option<string>,
    summary: Option<string>,
    transcription: Option<string>)

  function NoteUpdate(data: NoteData, info: PackageInfo): (u: CrmUpdate)
    ensures u.push.packages == info.packages && u.push.interestLevel == info.interestLevel
    ensures u.push.recordingId == data.recordingId && u.push.timestamp == data.timestamp
    ensures u.push.summary == data.summary && u.push.transcription == data.transcription
    ensures u.addPackages.Some? <==> info.packages != []
    ensures u.addPackages.Some? ==> u.addPackages.value == info.packages
    ensures info.interestLevel == "Hot Lead" ==> u.setStatus == Some("Hot Lead")
    ensures info.interestLevel == "Warm Lead" ==> u.setStatus == Some("Warm Lead")
    ensures info.interestLevel != "Hot Lead" && info.interestLevel != "Warm Lead" ==> u.setStatus.None?
  {
    var note := CrmNote(data.recordingId, data.timestamp, data.summary, data.transcription,
                        info.packages, info.interestLevel);
    var status := if info.interestLevel == "Hot Lead" then Some("Hot Lead")
                  else if info.interestLevel == "Warm Lead" then Some("Warm Lead")
                  else None;
    CrmUpdate(note, if |info.packages| > 0 then Some(info.packages) else None, status)
  }

  // ---------------------------------------------------------------------
  // The follow-up task

  /** The task request: title, priority and due date as days from today. */
  datatype TaskRequest = TaskRequest(title: string, priority: string, dueDays: int)

  const TitlePrefix := "[Comcast] Follow up - "

  function FollowUpTask(info: PackageInfo): (t: TaskRequest)
    ensures t.priority == "high" <==> info.interestLevel == "Hot Lead"
    ensures t.priority != "high" ==> t.priority == "medium"
    ensures t.dueDays == if t.priority == "high" then 1 else 3
    ensures StartsWith(t.title, TitlePrefix)
    ensures info.packages == [] ==> t.title == TitlePrefix + "General inquiry"
    ensures info.packages != [] && info.packages[0] != "" ==> t.title == TitlePrefix + Join(info.packages, ", ")
  {
    var priority := if info.interestLevel == "Hot Lead" then "high" else "medium";
    var joined := Join(info.packages, ", ");
    var topic := if joined != "" then joined else "General inquiry";
    AppendEnds(TitlePrefix, topic);
    TaskRequest(TitlePrefix + topic, priority, if priority == "high" then 1 else 3)
  }

  // ---------------------------------------------------------------------
  // The handler

  datatype HandleResult = HandleResult(
    businessName: Option<string>,
    address: Option<string>,
    query: Query,
    contact: Option<string>,
    note: Option<CrmUpdate>,
    noteOk: bool,
    task: Option<TaskRequest>,
    taskOk: bool,
    packages: seq<string>,
    actions: seq<string>)

  /** `handle`. `contact` is the id of the contact the query finds, if any;
      `noteSucceeds` and `taskSucceeds` are the outcomes of the update and of
      the task request when they are attempted. */
  method Handle(eng: Engine, data: NoteData, contact: Option<string>, noteSucceeds: bool, taskSucceeds: bool)
    returns (res: HandleResult)
    ensures res.businessName == ExtractBusinessName(eng, data.summary, data.transcription)
    ensures res.address == ExtractAddress(eng, data.summary, data.transcription)
    ensures res.query == ContactQuery(res.businessName, res.address)
    ensures res.packages == Mentions(eng, PackageTable, Lower(Combined(data.summary, data.transcription)))
    ensures res.contact == contact
    ensures res.note.Some? <==> contact.Some?
    ensures res.note.Some? ==>
              res.note.value == NoteUpdate(data, PackageInfo(res.packages, Interest(eng, Lower(Combined(data.summary, data.transcription)))))
    ensures res.task.Some? <==>
              contact.Some? && Interest(eng, Lower(Combined(data.summary, data.transcription))) != "Cold Lead"
    ensures res.task.Some? ==>
              res.task.value == FollowUpTask(PackageInfo(res.packages, Interest(eng, Lower(Combined(data.summary, data.transcription)))))
    ensures res.noteOk == (res.note.Some? && noteSucceeds)
    ensures res.taskOk == (res.task.Some? && taskSucceeds)
    ensures res.actions == ["Processed via COMCAST bucket"]
                           + (if res.noteOk then ["Added note to CRM"] else [])
                           + (if res.taskOk then ["Created follow-up task"] else [])
  {
    var businessName := ExtractBusinessName(eng, data.summary, data.transcription);
    var address := ExtractAddress(eng, data.summary, data.transcription);
    var info := ExtractPackageMentions(eng, data.summary, data.transcription);
    var note: Option<CrmUpdate> := None;
    var task: Option<TaskRequest> := None;
    var noteOk, taskOk := false, false;
    if contact.Some? {
      note, noteOk := Some(NoteUpdate(data, info)), noteSucceeds;
      if info.interestLevel != "Cold Lead" {
        task, taskOk := Some(FollowUpTask(info)), taskSucceeds;
      }
    }
    // The action log, each entry pushed only when its call succeeded.
    var actions := ["Processed via COMCAST bucket"]
                   + (if noteOk then ["Added note to CRM"] else [])
                   + (if taskOk then ["Created follow-up task"] else []);
    res := HandleResult(businessName, address, ContactQuery(businessName, address), contact,
                        note, noteOk, task, taskOk, info.packages, actions);
  }
}
