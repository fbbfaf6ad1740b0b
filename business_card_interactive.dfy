/** The interactive card flow: what was found and what is missing, the
    question asked for a missing field, the partial visit posted while
    fields are pending, the tags of a contact with missing fields, the
    update built from a user's answer, and when a visit is complete. The
    HTTP calls are outside the model: each operation returns the request it
    would make. */
module BusinessCardInteractive {
  import opened Wrappers
  import opened Text
  import opened BusinessCard

  /** The line shown for a present field. */
  function FoundLine(data: CardInfo, f: string): string {
    if f == "name" then "Name: " + Interp(data.name)
    else if f == "phone" then "Phone: " + Interp(data.phone)
    else if f == "email" then "Email: " + Interp(data.email)
    else
      var a := data.address.GetOr(Address(None, None, None, None));
      "Address: " + Interp(a.street) + ", " + Interp(a.city) + ", " + Interp(a.state) + " " + Interp(a.zip)
  }

  /** One line per present field, in the order of `fields`. */
  function FoundLines(data: CardInfo, fields: seq<string>): seq<string> {
    if fields == [] then []
    else
      var f := fields[|fields| - 1];
      var init := FoundLines(data, fields[..|fields| - 1]);
      if Absent(FieldValue(data, f)) then init else init + [FoundLine(data, f)]
  }

  /** The found lines are the lines of the present fields, one each, in
      order. */
  lemma {:induction false} FoundLinesFacts(data: CardInfo, fields: seq<string>)
    ensures |FoundLines(data, fields)| == |PresentOf(data, fields)|
    ensures forall k :: 0 <= k < |FoundLines(data, fields)| ==> FoundLines(data, fields)[k] == FoundLine(data, PresentOf(data, fields)[k])
  {
    if fields != [] {
      FoundLinesFacts(data, fields[..|fields| - 1]);
    }
  }

  lemma FoundLinesSnoc(data: CardInfo, fields: seq<string>, f: string)
    ensures FoundLines(data, fields + [f]) == FoundLines(data, fields) + (if Absent(FieldValue(data, f)) then [] else [FoundLine(data, f)])
  {
    assert (fields + [f])[..|fields|] == fields;
  }

  datatype AnalysisResult = AnalysisResult(found: string, missing: seq<string>, canCreate: bool, extractedData: CardInfo)

  /** `createAnalysisResult`: each required field, in turn, goes to `missing`
      or gives a line of `found`. */
  method CreateAnalysisResult(data: CardInfo) returns (r: AnalysisResult)
    ensures r.missing == MissingOf(data, RequiredFields)
    ensures r.found == Join(FoundLines(data, RequiredFields), "\n")
    ensures r.canCreate <==> r.missing == []
    ensures r.extractedData == data
  {
    ghost var ma := if Absent(data.name) then ["name"] else [];
    ghost var mb := if Absent(data.phone) then ["phone"] else [];
    ghost var mc := if Absent(data.email) then ["email"] else [];
    ghost var md := if Absent(Street(data)) then ["address"] else [];
    ghost var fa := if Absent(data.name) then [] else [FoundLine(data, "name")];
    ghost var fb := if Absent(data.phone) then [] else [FoundLine(data, "phone")];
    ghost var fc := if Absent(data.email) then [] else [FoundLine(data, "email")];
    ghost var fd := if Absent(Street(data)) then [] else [FoundLine(data, "address")];
    var missing: seq<string> := [];
    var found: seq<string> := [];
    if Absent(data.name) {
      missing := missing + ["name"];
    } else {
      found := found + [FoundLine(data, "name")];
    }
    assert missing == ma && found == fa;
    if Absent(data.phone) {
      missing := missing + ["phone"];
    } else {
      found := found + [FoundLine(data, "phone")];
    }
    assert missing == ma + mb && found == fa + fb;
    if Absent(data.email) {
      missing := missing + ["email"];
    } else {
      found := found + [FoundLine(data, "email")];
    }
    assert missing == ma + mb + mc && found == fa + fb + fc;
    if Absent(Street(data)) {
      missing := missing + ["address"];
    } else {
      found := found + [FoundLine(data, "address")];
    }
    assert missing == ma + mb + mc + md && found == fa + fb + fc + fd;
    MissingOfRequired(data);
    FoundLinesRequired(data);
    r := AnalysisResult(Join(found, "\n"), missing, |missing| == 0, data);
  }

  lemma FoundLinesRequired(data: CardInfo)
    ensures FoundLines(data, RequiredFields) ==
              (if Absent(data.name) then [] else [FoundLine(data, "name")])
              + (if Absent(data.phone) then [] else [FoundLine(data, "phone")])
              + (if Absent(data.email) then [] else [FoundLine(data, "email")])
              + (if Absent(Street(data)) then [] else [FoundLine(data, "address")])
  {
    var f1: seq<string> := [] + ["name"];
    var f2 := f1 + ["phone"];
    var f3 := f2 + ["email"];
    assert f3 + ["address"] == RequiredFields;
    FoundLinesSnoc(data, [], "name");
    FoundLinesSnoc(data, f1, "phone");
    FoundLinesSnoc(data, f2, "email");
    FoundLinesSnoc(data, f3, "address");
  }

  /** There are as many found lines as required fields that are not
      missing: every required field is reported exactly once. */
  lemma AnalysisCounts(data: CardInfo)
    ensures |FoundLines(data, RequiredFields)| + |MissingOf(data, RequiredFields)| == 4
    ensures forall f :: f in MissingOf(data, RequiredFields) <==> f in RequiredFields && Absent(FieldValue(data, f))
  {
    MissingPresentPartition(data, RequiredFields);
    FoundLinesFacts(data, RequiredFields);
  }

  /** The mark every question starts with. */
  const QuestionMark := "\U{2753} "

  /** The question after the mark: a fixed one for each required field, a
      generic request naming the field otherwise. */
  function QuestionText(field: string): string {
    if field == "name" then "What's the contact's full name?"
    else if field == "phone" then "What's the phone number?"
    else if field == "email" then "What's the email address?"
    else if field == "address" then "What's the street address? (I'll ask for city/state/zip separately if needed)"
    else "Please provide the " + field + ":"
  }

  /** `getMissingFieldQuestion`: the mark, then the field's question; it
      ends with a colon exactly when the field is not a required one, and
      then it asks to provide the field by name. */
  function MissingFieldQuestion(field: string): (q: string)
    ensures StartsWith(q, QuestionMark) && q[|QuestionMark|..] == QuestionText(field)
    ensures field !in RequiredFields ==> StartsWith(q[|QuestionMark|..], "Please provide the ")
    ensures EndsWith(q, ":") <==> field !in RequiredFields
    ensures field !in RequiredFields ==> EndsWith(q, field + ":")
  {
    var t := QuestionText(field);
    var q := QuestionMark + t;
    QuestionTextLast(field);
    AppendEnds(QuestionMark, t);
    assert q[|QuestionMark|..] == t;
    assert q[|q| - 1] == t[|t| - 1];
    GenericQuestion(field);
    EndsWithAfter(QuestionMark, t, field + ":");
    q
  }

  /** The question for a field that is not required asks for it by name. */
  lemma GenericQuestion(field: string)
    ensures field !in RequiredFields ==>
              StartsWith(QuestionText(field), "Please provide the ") && EndsWith(QuestionText(field), field + ":")
  {
    if field !in RequiredFields {
      var head := "Please provide the ";
      AppendAssoc(head, field, ":");
      AppendEnds(head, field + ":");
    }
  }

  /** A suffix of `t` stays a suffix after a prefix is put in front. */
  lemma EndsWithAfter(p: string, t: string, x: string)
    ensures EndsWith(t, x) ==> EndsWith(p + t, x)
  {
    if EndsWith(t, x) {
      assert (p + t)[|p + t| - |x|..] == t[|t| - |x|..];
    }
  }

  /** The question text ends with a colon exactly for a field that is not
      required. */
  lemma QuestionTextLast(field: string)
    ensures QuestionText(field) != []
    ensures QuestionText(field)[|QuestionText(field)| - 1] == ':' <==> field !in RequiredFields
  {
    var t := QuestionText(field);
    if field == "name" {
      assert t[30] == '?';
    } else if field == "phone" {
      assert t[23] == '?';
    } else if field == "email" {
      assert t[24] == '?';
    } else if field == "address" {
      assert t[76] == ')';
    } else {
      assert field !in RequiredFields;
    }
  }

  /** The visit record posted for a card. `lat` and `lng` are left out: they
      are null here. */
  datatype PartialVisit = PartialVisit(
    businessName: string,
    contactName: string,
    phone: string,
    email: string,
    address: string,
    city: string,
    state: string,
    zip: string,
    status: string,
    notes: string,
    missingFields: seq<string>,
    needsUpdate: bool)

  /** `createPartialVisit`'s record: a falsy contact field becomes "PENDING";
      "Unknown" is kept as it is. */
  function CreatePartialVisit(data: CardInfo, missingFields: seq<string>): (v: PartialVisit)
    ensures v.contactName == Or(data.name, "PENDING") && v.phone == Or(data.phone, "PENDING")
    ensures v.email == Or(data.email, "PENDING") && v.address == Or(Street(data), "PENDING")
    ensures v.businessName == (if Truthy(data.businessName) then data.businessName.value else Or(data.name, "Unknown Business"))
    ensures v.city == Or(if data.address.Some? then data.address.value.city else None, "Tacoma")
    ensures v.state == Or(if data.address.Some? then data.address.value.state else None, "WA")
    ensures v.zip == Or(if data.address.Some? then data.address.value.zip else None, "98404")
    ensures v.status == "interested" && v.needsUpdate && v.missingFields == missingFields
    ensures StartsWith(v.notes, "Business card scanned. Missing: " + Join(missingFields, ", ") + ". ")
    ensures EndsWith(v.notes, Or(data.notes, ""))
    ensures |v.notes| == |"Business card scanned. Missing: " + Join(missingFields, ", ") + ". "| + |Or(data.notes, "")|
  {
    var a := data.address.GetOr(Address(None, None, None, None));
    var head := "Business card scanned. Missing: " + Join(missingFields, ", ") + ". ";
    var notes := head + Or(data.notes, "");
    AppendEnds(head, Or(data.notes, ""));
    PartialVisit(
      Or(data.businessName, Or(data.name, "Unknown Business")),
      Or(data.name, "PENDING"),
      Or(data.phone, "PENDING"),
      Or(data.email, "PENDING"),
      Or(a.street, "PENDING"),
      Or(a.city, "Tacoma"),
      Or(a.state, "WA"),
      Or(a.zip, "98404"),
      "interested",
      notes,
      missingFields,
      true)
  }

  /** `tagGHLWithMissingFields`: one "missing-" tag per missing field, in
      order, then "needs-info". */
  function MissingTags(missingFields: seq<string>): (tags: seq<string>)
    ensures |tags| == |missingFields| + 1
    ensures forall k :: 0 <= k < |missingFields| ==> tags[k] == "missing-" + missingFields[k]
    ensures tags[|missingFields|] == "needs-info"
  {
    if missingFields == [] then ["needs-info"]
    else ["missing-" + missingFields[0]] + MissingTags(missingFields[1..])
  }

  /** The optional values the user's context may carry. */
  datatype UserContext = UserContext(businessName: Option<string>, city: Option<string>, state: Option<string>, zip: Option<string>)

  /** The visit keys the answer to `field` may set. */
  function KeysFor(field: string): set<string> {
    if field == "name" then {"contactName", "businessName"}
    else if field == "phone" then {"phone"}
    else if field == "email" then {"email"}
    else if field == "address" then {"address", "city", "state", "zip"}
    else {}
  }

  /** The PATCH request `updateVisitWithUserInfo` sends. */
  datatype VisitPatch = VisitPatch(path: string, update: map<string, string>)

  /** `updateVisitWithUserInfo`: the update holds the answered field and the
      context values that go with it, and nothing else. */
  method UpdateVisitWithUserInfo(visitId: string, field: string, value: string, ctx: UserContext)
    returns (patch: VisitPatch)
    ensures patch.path == "/api/visits/" + visitId
    ensures patch.update.Keys <= KeysFor(field)
    ensures field !in RequiredFields ==> patch.update == map[]
    ensures field == "name" ==>
              ("contactName" in patch.update && patch.update["contactName"] == value
               && ("businessName" in patch.update <==> Truthy(ctx.businessName))
               && ("businessName" in patch.update ==> patch.update["businessName"] == ctx.businessName.value))
    ensures field == "phone" ==> patch.update == map["phone" := value]
    ensures field == "email" ==> patch.update == map["email" := value]
    ensures field == "address" ==>
              ("address" in patch.update && patch.update["address"] == value
               && ("city" in patch.update <==> Truthy(ctx.city))
               && ("state" in patch.update <==> Truthy(ctx.state))
               && ("zip" in patch.update <==> Truthy(ctx.zip))
               && ("city" in patch.update ==> patch.update["city"] == ctx.city.value)
               && ("state" in patch.update ==> patch.update["state"] == ctx.state.value)
               && ("zip" in patch.update ==> patch.update["zip"] == ctx.zip.value))
  {
    var update: map<string, string> := map[];
    if field == "name" {
      update := update["contactName" := value];
      if Truthy(ctx.businessName) {
        update := update["businessName" := ctx.businessName.value];
      }
    } else if field == "phone" {
      update := update["phone" := value];
    } else if field == "email" {
      update := update["email" := value];
    } else if field == "address" {
      update := update["address" := value];
      if Truthy(ctx.city) {
        update := update["city" := ctx.city.value];
      }
      if Truthy(ctx.state) {
        update := update["state" := ctx.state.value];
      }
      if Truthy(ctx.zip) {
        update := update["zip" := ctx.zip.value];
      }
    }
    patch := VisitPatch("/api/visits/" + visitId, update);
  }

  /** The fields of a visit `isVisitComplete` reads. */
  datatype VisitFields = VisitFields(contactName: Option<string>, phone: Option<string>, email: Option<string>, address: Option<string>)

  predicate Collected(v: Option<string>) {
    Truthy(v) && v.value != "PENDING"
  }

  /** The value of a visit that stands for the required field `f`. */
  function VisitValue(visit: VisitFields, f: string): Option<string> {
    if f == "name" then visit.contactName
    else if f == "phone" then visit.phone
    else if f == "email" then visit.email
    else if f == "address" then visit.address
    else None
  }

  /** `isVisitComplete`: the four contact fields are all present and none is
      still "PENDING"; the fields it checks are exactly the required ones. */
  predicate IsVisitComplete(visit: VisitFields)
    ensures IsVisitComplete(visit) <==> forall f :: f in RequiredFields ==> Collected(VisitValue(visit, f))
  {
    assert RequiredFields[0] == "name" && RequiredFields[1] == "phone";
    assert RequiredFields[2] == "email" && RequiredFields[3] == "address";
    assert VisitValue(visit, "name") == visit.contactName && VisitValue(visit, "phone") == visit.phone;
    assert VisitValue(visit, "email") == visit.email && VisitValue(visit, "address") == visit.address;
    Collected(visit.contactName) && Collected(visit.phone) && Collected(visit.email) && Collected(visit.address)
  }

  function FieldsOf(v: PartialVisit): VisitFields {
    VisitFields(Some(v.contactName), Some(v.phone), Some(v.email), Some(v.address))
  }

  /** A partial visit is complete exactly when the card had all four values
      and none of them was the word "PENDING". */
  lemma PartialVisitComplete(data: CardInfo, missingFields: seq<string>)
    ensures IsVisitComplete(FieldsOf(CreatePartialVisit(data, missingFields))) <==>
              Collected(data.name) && Collected(data.phone) && Collected(data.email) && Collected(Street(data))
  {
  }

  /** As written, a card whose four values all read "Unknown" has all four
      fields missing, yet the partial visit made from it counts as complete. */
  lemma UnknownCardCountsComplete()
    ensures var data := CardInfo(Some("Unknown"), Some("Unknown"), Some("Unknown"), None,
                                 Some(Address(Some("Unknown"), None, None, None)), None, None, None);
            MissingOf(data, RequiredFields) == RequiredFields
            && IsVisitComplete(FieldsOf(CreatePartialVisit(data, MissingOf(data, RequiredFields))))
  {
    var data := CardInfo(Some("Unknown"), Some("Unknown"), Some("Unknown"), None,
                         Some(Address(Some("Unknown"), None, None, None)), None, None, None);
    MissingOfRequired(data);
  }

  /** The evidently intended partial visit: a value the analysis calls
      missing, "Unknown" included, is stored as "PENDING". */
  function PendingOr(v: Option<string>): string {
    if Absent(v) then "PENDING" else v.value
  }

  function CreatePartialVisitPending(data: CardInfo, missingFields: seq<string>): (v: PartialVisit)
    ensures v.contactName == PendingOr(data.name) && v.phone == PendingOr(data.phone)
    ensures v.email == PendingOr(data.email) && v.address == PendingOr(Street(data))
  {
    var v := CreatePartialVisit(data, missingFields);
    v.(contactName := PendingOr(data.name), phone := PendingOr(data.phone),
       email := PendingOr(data.email), address := PendingOr(Street(data)))
  }

  /** With that correction a visit is complete exactly when the analysis
      found nothing missing (for cards whose values are not the word
      "PENDING" itself). */
  lemma PendingVisitCompleteIffNothingMissing(data: CardInfo)
    requires FieldValue(data, "name") != Some("PENDING") && FieldValue(data, "phone") != Some("PENDING")
    requires FieldValue(data, "email") != Some("PENDING") && FieldValue(data, "address") != Some("PENDING")
    ensures IsVisitComplete(FieldsOf(CreatePartialVisitPending(data, MissingOf(data, RequiredFields))))
            <==> MissingOf(data, RequiredFields) == []
  {
    MissingOfRequired(data);
  }
}
