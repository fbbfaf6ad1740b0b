/** The visits-to-CRM sync: the contact record built from a stored visit,
    the row and log updates after one sync attempt, and the tally of a sync
    of every pending visit. The database is the `visits` map and the
    `syncLog` sequence; the CRM's answer to each request is a parameter. */
module GhlSync {
  import opened Wrappers
  import opened Text

  /** A stored visit row (NULL text columns read as ""). */
  datatype Visit = Visit(
    businessName: string,
    contactName: string,
    phone: string,
    email: string,
    address: string,
    city: string,
    zipCode: string,
    visitStatus: string,
    ghlContactId: Option<string>,
    syncedToGhl: int,
    lastSyncError: Option<string>)

  // ---------------------------------------------------------------------
  // The contact record

  /** The words of the contact name, as Python's `str.split()` finds them. */
  function NameWords(v: Visit): seq<string> {
    Tokens(v.contactName, IsPySpace)
  }

  /** The first name as written: the first word of a non-empty contact name,
      else the first 20 characters of the business name. None stands for the
      IndexError raised by a contact name made only of white space. */
  function FirstNameAsWritten(v: Visit): (r: Option<string>)
    ensures r.None? <==> v.contactName != "" && NameWords(v) == []
    ensures r.Some? && v.contactName != "" ==> r.value == NameWords(v)[0] && r.value != ""
    ensures v.contactName == "" ==>
              r.Some? && StartsWith(v.businessName, r.value)
              && |r.value| == (if |v.businessName| <= 20 then |v.businessName| else 20)
  {
    if v.contactName != "" then
      (if NameWords(v) == [] then None else Some(NameWords(v)[0]))
    else Some(Take(v.businessName, 20))
  }

  lemma {:induction false} TokensOfSpace(s: string)
    requires forall i :: 0 <= i < |s| ==> IsPySpace(s[i])
    ensures Tokens(s, IsPySpace) == []
    decreases |s|
  {
    if s != [] {
      TokensOfSpace(s[1..]);
    }
  }

  /** A contact name of white space only is truthy yet has no first word:
      building the record raises before the request is tried. */
  lemma SpaceOnlyNameRaises(v: Visit)
    requires v.contactName != []
    requires forall i :: 0 <= i < |v.contactName| ==> IsPySpace(v.contactName[i])
    ensures FirstNameAsWritten(v).None?
  {
    TokensOfSpace(v.contactName);
  }

  /** The first name: the first word of the contact name, a non-empty word,
      or, when the contact name has no word, the first 20 characters of the
      business name (all of it when shorter). */
  function FirstName(v: Visit): (r: string)
    ensures NameWords(v) != [] ==> r == NameWords(v)[0] && r != ""
    ensures NameWords(v) == [] ==>
              StartsWith(v.businessName, r) && |r| == (if |v.businessName| <= 20 then |v.businessName| else 20)
  {
    if NameWords(v) != [] then NameWords(v)[0] else Take(v.businessName, 20)
  }

  /** The corrected first name agrees with the written one wherever that one
      is defined. */
  lemma FirstNameCorrected(v: Visit)
    ensures FirstNameAsWritten(v).Some? ==> FirstNameAsWritten(v).value == FirstName(v)
  {
    if v.contactName == "" {
      assert NameWords(v) == [];
    }
  }

  /** The words after the first, joined by single spaces: empty exactly when
      the contact name has at most one word. */
  function LastName(v: Visit): (r: string)
    ensures r == "" <==> |NameWords(v)| <= 1
  {
    if v.contactName != "" && |NameWords(v)| > 1 then
      var ws := NameWords(v);
      assert ws[1..][0] == ws[1];
      assert |Join(ws[1..], " ")| >= |ws[1]| > 0;
      Join(ws[1..], " ")
    else
      assert v.contactName == "" ==> NameWords(v) == [];
      ""
  }

  /** First and last name together give back the contact name's words
      joined by single spaces. */
  lemma NameRoundTrip(v: Visit)
    requires NameWords(v) != []
    ensures LastName(v) == "" <==> |NameWords(v)| == 1
    ensures (if LastName(v) == "" then FirstName(v) else FirstName(v) + " " + LastName(v)) == Join(NameWords(v), " ")
  {
  }

  /** The contact record sent to the CRM. */
  datatype ContactData = ContactData(
    firstName: string,
    lastName: string,
    email: string,
    phone: string,
    address1: string,
    city: string,
    state: string,
    postalCode: string,
    customFields: seq<(string, string)>,
    tags: seq<string>)

  const PlaceholderDomain := "@placeholder.com"

  /** The record for visit `id`: its own email or a placeholder, its city or
      Tacoma, always Washington, and three tags. */
  function Contact(id: int, v: Visit): (c: ContactData)
    ensures c.firstName == FirstName(v) && c.lastName == LastName(v)
    ensures v.email != "" ==> c.email == v.email
    ensures v.email == "" ==> c.email == IntToString(id) + PlaceholderDomain
    ensures c.city == (if v.city != "" then v.city else "Tacoma") && c.state == "WA"
    ensures c.phone == v.phone && c.address1 == v.address && c.postalCode == v.zipCode
    ensures |c.tags| == 3 && c.tags[0] == "comcast-prospect" && c.tags[2] == v.visitStatus
    ensures StartsWith(c.tags[1], "zip-") && c.tags[1][4..] == v.zipCode
    ensures c.customFields == [("business_name", v.businessName), ("zip_code", v.zipCode), ("visit_status", v.visitStatus)]
  {
    var email := if v.email != "" then v.email else IntToString(id) + PlaceholderDomain;
    var zipTag := "zip-" + v.zipCode;
    assert zipTag[..4] == "zip-" && zipTag[4..] == v.zipCode;
    ContactData(
      FirstName(v),
      LastName(v),
      email,
      v.phone,
      v.address,
      if v.city != "" then v.city else "Tacoma",
      "WA",
      v.zipCode,
      [("business_name", v.businessName), ("zip_code", v.zipCode), ("visit_status", v.visitStatus)],
      ["comcast-prospect", zipTag, v.visitStatus])
  }

  const ContactsUrl := "https://services.leadconnectorhq.com/contacts/"

  /** The request one sync sends. */
  datatype Request =
    | Put(url: string, data: ContactData)
    | Post(url: string, data: ContactData, locationId: string)

  /** A visit already linked to a contact updates it; any other is created
      in the configured location. */
  function ContactRequest(id: int, v: Visit, locationId: string): (r: Request)
    ensures r.Put? <==> Truthy(v.ghlContactId)
    ensures r.Put? ==> r.url == ContactsUrl + v.ghlContactId.value
    ensures r.Post? ==> r.url == ContactsUrl && r.locationId == locationId
    ensures r.data == Contact(id, v)
  {
    if Truthy(v.ghlContactId) then Put(ContactsUrl + v.ghlContactId.value, Contact(id, v))
    else Post(ContactsUrl, Contact(id, v), locationId)
  }

  // ---------------------------------------------------------------------
  // One sync attempt

  /** The CRM's answer: a status with the contact id found in the body
      (`contact.id` and the top-level `id`) and the body text, or an
      exception with its message. */
  datatype Outcome =
    | Answered(status: int, contactId: Option<string>, topId: Option<string>, text: string)
    | Raised(message: string)

  predicate Succeeds(o: Outcome) {
    o.Answered? && (o.status == 200 || o.status == 201)
  }

  /** `contact.id`, or the top-level `id` when that is missing or empty. */
  function GhlId(o: Outcome): Option<string>
    requires o.Answered?
  {
    if Truthy(o.contactId) then o.contactId else o.topId
  }

  /** The error recorded for a refused request: the status and at most 200
      characters of the body. */
  function HttpError(o: Outcome): (e: string)
    requires o.Answered?
    ensures StartsWith(e, "HTTP " + IntToString(o.status) + ": ")
    ensures |e| <= |"HTTP " + IntToString(o.status) + ": "| + 200
  {
    var head := "HTTP " + IntToString(o.status) + ": ";
    var e := head + Take(o.text, 200);
    assert e[..|head|] == head;
    e
  }

  /** The row after one sync attempt. Only the three sync columns can
      change; the row is marked synced, with its error cleared, exactly when
      the CRM accepted the request. */
  function AfterSync(v: Visit, o: Outcome): (w: Visit)
    ensures w.(ghlContactId := v.ghlContactId, syncedToGhl := v.syncedToGhl, lastSyncError := v.lastSyncError) == v
    ensures w.lastSyncError.None? <==> Succeeds(o)
    ensures Succeeds(o) ==> w.syncedToGhl == 1 && w.ghlContactId == GhlId(o)
    ensures !Succeeds(o) ==> w.syncedToGhl == v.syncedToGhl && w.ghlContactId == v.ghlContactId
    ensures o.Raised? ==> w.lastSyncError == Some(Take(o.message, 200))
  {
    match o
    case Answered(_, _, _, _) =>
      if Succeeds(o) then v.(ghlContactId := GhlId(o), syncedToGhl := 1, lastSyncError := None)
      else v.(lastSyncError := Some(HttpError(o)))
    case Raised(message) => v.(lastSyncError := Some(Take(message, 200)))
  }

  /** One row of the sync log. */
  datatype LogEntry = LogEntry(action: string, recordId: int, ghlContactId: Option<string>, status: string, message: string)

  /** What one sync attempt logs: a success names "update" or "create" by
      whether the visit was already linked; a refusal is logged as a failed
      "create" whatever the request was; an exception logs nothing. */
  function LogAfter(id: int, v: Visit, o: Outcome): (r: seq<LogEntry>)
    ensures r == [] <==> o.Raised?
    ensures |r| <= 1
    ensures Succeeds(o) ==> r[0].status == "success" && r[0].ghlContactId == GhlId(o)
                            && (r[0].action == "update" <==> Truthy(v.ghlContactId))
    ensures o.Answered? && !Succeeds(o) ==> r[0] == LogEntry("create", id, None, "error", HttpError(o))
    ensures forall e :: e in r ==> e.recordId == id
  {
    match o
    case Answered(_, _, _, _) =>
      if Succeeds(o) then [LogEntry(if Truthy(v.ghlContactId) then "update" else "create", id, GhlId(o), "success", "")]
      else [LogEntry("create", id, None, "error", HttpError(o))]
    case Raised(_) => []
  }

  /** The log the attempts for `ids` append, one after the other, each row
      as it was at the start. */
  function LogOf(ids: seq<int>, start: map<int, Visit>, answer: int -> Outcome): (r: seq<LogEntry>)
    requires forall k :: 0 <= k < |ids| ==> ids[k] in start
    ensures |r| <= |ids|
    ensures forall e :: e in r ==> e.recordId in ids
  {
    if ids == [] then []
    else
      var id := ids[|ids| - 1];
      var front := LogOf(ids[..|ids| - 1], start, answer);
      assert forall e :: e in front ==> e.recordId in ids;
      front + LogAfter(id, start[id], answer(id))
  }

  /** One more attempt appends its entries to the log. */
  lemma LogOfSnoc(ids: seq<int>, start: map<int, Visit>, id: int, answer: int -> Outcome)
    requires forall k :: 0 <= k < |ids| ==> ids[k] in start
    requires id in start
    ensures forall k :: 0 <= k < |ids + [id]| ==> (ids + [id])[k] in start
    ensures LogOf(ids + [id], start, answer) == LogOf(ids, start, answer) + LogAfter(id, start[id], answer(id))
  {
    assert (ids + [id])[..|ids|] == ids;
  }

  /** The ids of the rows not yet synced. */
  function Pending(visits: map<int, Visit>): set<int> {
    set id | id in visits && visits[id].syncedToGhl == 0
  }

  /** The ids among `s` whose sync the CRM accepts. */
  ghost function Accepted(s: set<int>, answer: int -> Outcome): set<int> {
    set id | id in s && Succeeds(answer(id))
  }

  lemma AcceptedAdd(s: set<int>, id: int, answer: int -> Outcome)
    requires id !in s
    ensures |s + {id}| == |s| + 1
    ensures |Accepted(s + {id}, answer)| == |Accepted(s, answer)| + if Succeeds(answer(id)) then 1 else 0
  {
    if Succeeds(answer(id)) {
      assert Accepted(s + {id}, answer) == Accepted(s, answer) + {id};
    } else {
      assert Accepted(s + {id}, answer) == Accepted(s, answer);
    }
  }

  lemma EmptyWithoutMembers(s: set<int>)
    requires forall x :: x !in s
    ensures s == {}
  {
    assert forall x :: x in s <==> x in {};
  }

  /** A non-empty set has a member to pick. */
  lemma MemberOf(s: set<int>)
    requires s != {}
    ensures exists x :: x in s
  {
    if forall x :: x !in s {
      EmptyWithoutMembers(s);
    }
  }

  /** `visits` is `start` with the rows in `done` synced and every other
      row unchanged. */
  ghost predicate SyncedAs(visits: map<int, Visit>, start: map<int, Visit>, done: set<int>, answer: int -> Outcome) {
    visits.Keys == start.Keys
    && forall id :: id in start ==> visits[id] == (if id in done then AfterSync(start[id], answer(id)) else start[id])
  }

  lemma SyncedStep(visits: map<int, Visit>, start: map<int, Visit>, done: set<int>, id: int, answer: int -> Outcome)
    requires SyncedAs(visits, start, done, answer) && id in start && id !in done
    ensures id in visits && visits[id] == start[id]
    ensures SyncedAs(visits[id := AfterSync(visits[id], answer(id))], start, done + {id}, answer)
  {
  }

  /** The rows part of the loop of `sync_all_pending`: the rows pending at
      the start are split into the `done` ones, synced, and the `remaining`
      ones, left as they were; `success` counts the done rows the CRM
      accepted and `failed` the others. */
  ghost predicate RowsProgress(visits: map<int, Visit>, start: map<int, Visit>, done: set<int>, remaining: set<int>,
                               success: nat, failed: nat, answer: int -> Outcome) {
    && done !! remaining && done + remaining == Pending(start)
    && SyncedAs(visits, start, done, answer)
    && success == |Accepted(done, answer)| && success + failed == |done|
  }

  /** The log part of the loop: `order` lists the done rows, each once, in
      the order they were synced, and the log is the starting log followed
      by their entries in that order. */
  ghost predicate LogProgress(syncLog: seq<LogEntry>, start: map<int, Visit>, log0: seq<LogEntry>,
                              order: seq<int>, done: set<int>, answer: int -> Outcome) {
    && multiset(order) == multiset(done)
    && (forall k :: 0 <= k < |order| ==> order[k] in start)
    && syncLog == log0 + LogOf(order, start, answer)
  }

  /** The loop of `sync_all_pending` part-way. */
  ghost predicate Progress(visits: map<int, Visit>, syncLog: seq<LogEntry>, start: map<int, Visit>,
                           log0: seq<LogEntry>, order: seq<int>, done: set<int>, remaining: set<int>,
                           success: nat, failed: nat, answer: int -> Outcome) {
    RowsProgress(visits, start, done, remaining, success, failed, answer)
    && LogProgress(syncLog, start, log0, order, done, answer)
  }

  /** Appending a fresh id to the order adds it to the done set. */
  lemma OrderSnoc(order: seq<int>, done: set<int>, id: int)
    requires multiset(order) == multiset(done) && id !in done
    ensures multiset(order + [id]) == multiset(done + {id})
  {
    assert multiset(done + {id}) == multiset(done) + multiset{id};
  }

  /** Syncing one remaining row keeps the rows part, with the row done. */
  lemma RowsStep(visits: map<int, Visit>, start: map<int, Visit>, done: set<int>, remaining: set<int>,
                 success: nat, failed: nat, id: int, answer: int -> Outcome)
    requires RowsProgress(visits, start, done, remaining, success, failed, answer) && id in remaining
    ensures id in start && id !in done && id in visits && visits[id] == start[id]
    ensures RowsProgress(visits[id := AfterSync(visits[id], answer(id))], start, done + {id}, remaining - {id},
                         if Succeeds(answer(id)) then success + 1 else success,
                         if Succeeds(answer(id)) then failed else failed + 1, answer)
  {
    SyncedStep(visits, start, done, id, answer);
    AcceptedAdd(done, id, answer);
  }

  /** Syncing a row not yet done keeps the log part, with the row appended
      to the order and its entry to the log. */
  lemma LogStep(syncLog: seq<LogEntry>, start: map<int, Visit>, log0: seq<LogEntry>,
                order: seq<int>, done: set<int>, id: int, answer: int -> Outcome)
    requires LogProgress(syncLog, start, log0, order, done, answer) && id in start && id !in done
    ensures LogProgress(syncLog + LogAfter(id, start[id], answer(id)), start, log0, order + [id], done + {id}, answer)
  {
    OrderSnoc(order, done, id);
    LogOfSnoc(order, start, id, answer);
  }

  /** Syncing one remaining row keeps `Progress`, with the row done. */
  lemma ProgressStep(visits: map<int, Visit>, syncLog: seq<LogEntry>, start: map<int, Visit>,
                     log0: seq<LogEntry>, order: seq<int>, done: set<int>, remaining: set<int>,
                     success: nat, failed: nat, id: int, answer: int -> Outcome)
    requires Progress(visits, syncLog, start, log0, order, done, remaining, success, failed, answer) && id in remaining
    ensures id in visits && visits[id] == start[id]
    ensures Progress(visits[id := AfterSync(visits[id], answer(id))], syncLog + LogAfter(id, visits[id], answer(id)),
                     start, log0, order + [id], done + {id}, remaining - {id},
                     if Succeeds(answer(id)) then success + 1 else success,
                     if Succeeds(answer(id)) then failed else failed + 1, answer)
  {
    RowsStep(visits, start, done, remaining, success, failed, id, answer);
    LogStep(syncLog, start, log0, order, done, id, answer);
  }

  /** The visits table and the sync log. */
  class GhlComcastSync {
    var visits: map<int, Visit>
    var syncLog: seq<LogEntry>
    const locationId: string

    constructor(visits0: map<int, Visit>, locationId: string)
      ensures this.visits == visits0 && this.syncLog == [] && this.locationId == locationId
    {
      this.visits := visits0;
      this.syncLog := [];
      this.locationId := locationId;
    }

    /** `sync_to_ghl`: an unknown id changes nothing and fails; otherwise
        the request for the row is sent and `answer` decides the row's new
        sync columns and the log entry. */
    method SyncToGhl(visitId: int, answer: Outcome) returns (ok: bool, sent: Option<Request>)
      modifies this
      ensures visitId !in old(visits) ==> !ok && sent.None? && visits == old(visits) && syncLog == old(syncLog)
      ensures visitId in old(visits) ==>
                var v := old(visits)[visitId];
                (ok <==> Succeeds(answer))
                && sent == Some(ContactRequest(visitId, v, locationId))
                && visits == old(visits)[visitId := AfterSync(v, answer)]
                && syncLog == old(syncLog) + LogAfter(visitId, v, answer)
    {
      if visitId !in visits {
        return false, None;
      }
      var v := visits[visitId];
      var request := ContactRequest(visitId, v, locationId);
      sent := Some(request);
      match answer
      case Raised(message) =>
        visits := visits[visitId := v.(lastSyncError := Some(Take(message, 200)))];
        ok := false;
      case Answered(status, _, _, _) =>
        if status == 200 || status == 201 {
          var ghlId := GhlId(answer);
          visits := visits[visitId := v.(ghlContactId := ghlId, syncedToGhl := 1, lastSyncError := None)];
          var action := if Truthy(v.ghlContactId) then "update" else "create";
          syncLog := syncLog + [LogEntry(action, visitId, ghlId, "success", "")];
          ok := true;
        } else {
          var errorMsg := HttpError(answer);
          visits := visits[visitId := v.(lastSyncError := Some(errorMsg))];
          syncLog := syncLog + [LogEntry("create", visitId, None, "error", errorMsg)];
          ok := false;
        }
    }

    /** One pass of the loop of `sync_all_pending`: the row is synced as
        `answer` decides, every other row stays as it was, and the row moves
        from the remaining ids to the done ones, counted as a success iff the
        CRM accepted it. */
    method SyncPendingRow(ghost start: map<int, Visit>, ghost log0: seq<LogEntry>, ghost order: seq<int>,
                          ghost done: set<int>, remaining: set<int>,
                          success: nat, failed: nat, id: int, answer: int -> Outcome)
      returns (success': nat, failed': nat)
      modifies this
      requires Progress(visits, syncLog, start, log0, order, done, remaining, success, failed, answer) && id in remaining
      ensures Progress(visits, syncLog, start, log0, order + [id], done + {id}, remaining - {id}, success', failed', answer)
      ensures id in old(visits) && syncLog == old(syncLog) + LogAfter(id, old(visits)[id], answer(id))
    {
      ProgressStep(visits, syncLog, start, log0, order, done, remaining, success, failed, id, answer);
      var ok, sent := SyncToGhl(id, answer(id));
      if ok {
        success', failed' := success + 1, failed;
      } else {
        success', failed' := success, failed + 1;
      }
    }

    /** `sync_all_pending`: every row pending at the start is synced once,
        in an unspecified order, given by `order`. The log keeps its earlier
        entries and gains each pending row's entry in that order. The
        successes are exactly the pending rows the CRM accepted, and
        successes and failures add up to the number of pending rows. */
    method SyncAllPending(answer: int -> Outcome) returns (success: nat, failed: nat, ghost order: seq<int>)
      modifies this
      ensures success + failed == |Pending(old(visits))|
      ensures success == |Accepted(Pending(old(visits)), answer)|
      ensures SyncedAs(visits, old(visits), Pending(old(visits)), answer)
      ensures multiset(order) == multiset(Pending(old(visits)))
      ensures forall k :: 0 <= k < |order| ==> order[k] in old(visits)
      ensures old(syncLog) <= syncLog
      ensures syncLog == old(syncLog) + LogOf(order, old(visits), answer)
    {
      var remaining := Pending(visits);
      ghost var start := visits;
      ghost var log0 := syncLog;
      ghost var done: set<int> := {};
      order := [];
      success, failed := 0, 0;
      while remaining != {}
        invariant Progress(visits, syncLog, start, log0, order, done, remaining, success, failed, answer)
        decreases remaining
      {
        MemberOf(remaining);
        var id :| id in remaining;
        success, failed := SyncPendingRow(start, log0, order, done, remaining, success, failed, id, answer);
        order := order + [id];
        done := done + {id};
        remaining := remaining - {id};
      }
    }
  }
}
