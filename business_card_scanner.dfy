/** The card scanner: the missing-field check, the visit record posted for
    a card, and the summary `processBusinessCard` returns. The image
    analysis, geocoding and the visits API are outside the model: their
    outcomes are parameters, and the visit is returned as the record that
    would be posted. */
module BusinessCardScanner {
  import opened Wrappers
  import opened Text
  import opened BusinessCard

  /** `checkMissingFields`: each required field, in turn, is added when it
      is missing. */
  method CheckMissingFields(data: CardInfo) returns (missing: seq<string>)
    ensures missing == MissingOf(data, RequiredFields)
  {
    missing := [];
    if Absent(data.name) {
      missing := missing + ["name"];
    }
    if Absent(data.phone) {
      missing := missing + ["phone"];
    }
    if Absent(data.email) {
      missing := missing + ["email"];
    }
    if Absent(Street(data)) {
      missing := missing + ["address"];
    }
    MissingOfRequired(data);
  }

  /** The missing fields are exactly the required fields whose value is
      absent or "Unknown", no more than four of them. */
  lemma MissingFieldsFacts(data: CardInfo)
    ensures |MissingOf(data, RequiredFields)| <= 4
    ensures forall f :: f in MissingOf(data, RequiredFields) <==> f in RequiredFields && Absent(FieldValue(data, f))
    ensures MissingOf(data, RequiredFields) == [] <==> forall f :: f in RequiredFields ==> !Absent(FieldValue(data, f))
  {
    MissingPresentPartition(data, RequiredFields);
    if MissingOf(data, RequiredFields) != [] {
      assert MissingOf(data, RequiredFields)[0] in MissingOf(data, RequiredFields);
    }
  }

  /** A geocoding result. */
  datatype Geo = Geo(lat: real, lng: real)

  /** The visit record `createVisit` posts. */
  datatype VisitData = VisitData(
    businessName: string,
    contactName: string,
    phone: string,
    email: string,
    address: string,
    city: string,
    state: string,
    zip: string,
    lat: Option<real>,
    lng: Option<real>,
    status: string,
    notes: string,
    missingFields: Option<seq<string>>)

  /** The address string sent to the geocoder. */
  function GeocodeQuery(a: Address): string {
    Interp(a.street) + ", " + Interp(a.city) + ", " + Interp(a.state) + " " + Interp(a.zip)
  }

  /** `createVisit`'s record and its geocoding query. The geocoder is asked
      only when the card has an address; `geocoded` is its answer. */
  function CreateVisit(data: CardInfo, missingFields: seq<string>, geocoded: Option<Geo>): (r: (Option<string>, VisitData))
    ensures r.0.Some? <==> data.address.Some?
    ensures r.0.Some? ==> r.0.value == GeocodeQuery(data.address.value)
    ensures r.1.businessName == (if Truthy(data.businessName) then data.businessName.value else Or(data.name, "Unknown Business"))
    ensures r.1.contactName == Or(data.name, "Unknown") && r.1.phone == Or(data.phone, "Unknown")
    ensures r.1.email == Or(data.email, "Unknown") && r.1.address == Or(Street(data), "Unknown")
    ensures r.1.city == Or(if data.address.Some? then data.address.value.city else None, "Tacoma")
    ensures r.1.state == Or(if data.address.Some? then data.address.value.state else None, "WA")
    ensures r.1.zip == Or(if data.address.Some? then data.address.value.zip else None, "98404")
    ensures data.address.None? ==> r.1.lat.None? && r.1.lng.None?
    ensures data.address.Some? ==>
              (r.1.lat.Some? <==> geocoded.Some? && geocoded.value.lat != 0.0)
              && (r.1.lng.Some? <==> geocoded.Some? && geocoded.value.lng != 0.0)
    ensures r.1.lat.Some? ==> geocoded.Some? && r.1.lat.value == geocoded.value.lat
    ensures r.1.lng.Some? ==> geocoded.Some? && r.1.lng.value == geocoded.value.lng
    ensures r.1.status == "interested" && r.1.notes == Or(data.notes, "")
    ensures r.1.missingFields.Some? <==> missingFields != []
    ensures r.1.missingFields.Some? ==> r.1.missingFields.value == missingFields
  {
    var query := if data.address.Some? then Some(GeocodeQuery(data.address.value)) else None;
    var geo := if data.address.Some? then geocoded else None;
    var a := data.address.GetOr(Address(None, None, None, None));
    // A coordinate of 0 is falsy, so it is stored as null.
    var lat := if geo.Some? && geo.value.lat != 0.0 then Some(geo.value.lat) else None;
    var lng := if geo.Some? && geo.value.lng != 0.0 then Some(geo.value.lng) else None;
    (query, VisitData(
      Or(data.businessName, Or(data.name, "Unknown Business")),
      Or(data.name, "Unknown"),
      Or(data.phone, "Unknown"),
      Or(data.email, "Unknown"),
      Or(a.street, "Unknown"),
      Or(a.city, "Tacoma"),
      Or(a.state, "WA"),
      Or(a.zip, "98404"),
      lat,
      lng,
      "interested",
      Or(data.notes, ""),
      if |missingFields| > 0 then Some(missingFields) else None))
  }

  /** What the visits API answered for a created visit. */
  datatype CreatedVisit = CreatedVisit(id: Option<string>, ghlContactId: Option<string>)

  /** The summary `processBusinessCard` returns. */
  datatype ProcessResult = ProcessResult(
    success: bool,
    visitId: Option<string>,
    ghlContactId: Option<string>,
    ghlUrl: Option<string>,
    extracted: CardInfo,
    missingFields: seq<string>,
    needsFollowUp: bool,
    taskCreated: bool,
    posted: VisitData)

  function ContactUrl(locationId: Option<string>, contactId: string): string {
    "https://app.thetraffic.link/v2/location/" + Interp(locationId) + "/contacts/detail/" + contactId
  }

  /** `processBusinessCard` on the analysed card `data`. `created` is the
      visits API's answer (None when the call fails, which ends the run with
      an error); `locationId` is the configured location. */
  method ProcessBusinessCard(data: CardInfo, geocoded: Option<Geo>, created: Option<CreatedVisit>, locationId: Option<string>)
    returns (r: Option<ProcessResult>)
    ensures r.Some? <==> created.Some?
    ensures r.Some? ==>
              r.value.success
              && r.value.missingFields == MissingOf(data, RequiredFields)
              && r.value.extracted == data
              && r.value.posted == CreateVisit(data, r.value.missingFields, geocoded).1
              && (r.value.needsFollowUp <==> r.value.missingFields != [])
              && r.value.taskCreated == r.value.needsFollowUp
              && r.value.visitId == created.value.id
              && r.value.ghlContactId == created.value.ghlContactId
              && (r.value.ghlUrl.None? <==> !Truthy(created.value.ghlContactId))
              && (r.value.ghlUrl.Some? ==> r.value.ghlUrl.value == ContactUrl(locationId, created.value.ghlContactId.value))
  {
    var missingFields := CheckMissingFields(data);
    var (_, visitData) := CreateVisit(data, missingFields, geocoded);
    if created.None? {
      return None;
    }
    var visit := created.value;
    var taskCreated := false;
    if |missingFields| > 0 {
      taskCreated := true;
    }
    var url := if Truthy(visit.ghlContactId) then Some(ContactUrl(locationId, visit.ghlContactId.value)) else None;
    r := Some(ProcessResult(true, visit.id, visit.ghlContactId, url, data, missingFields, |missingFields| > 0, taskCreated, visitData));
  }

  /** The analysis the scanner performs today: every field null. */
  const MockAnalysis := CardInfo(None, None, None, None, Some(Address(None, None, None, None)), None, None, None)

  /** With that analysis every required field is missing, the visit is
      posted with "Unknown" contact fields, and the geocoder is still asked,
      since the address object is present. */
  lemma MockAnalysisFacts(geocoded: Option<Geo>)
    ensures MissingOf(MockAnalysis, RequiredFields) == RequiredFields
    ensures CreateVisit(MockAnalysis, RequiredFields, geocoded).0.Some?
    ensures CreateVisit(MockAnalysis, RequiredFields, geocoded).1.contactName == "Unknown"
    ensures CreateVisit(MockAnalysis, RequiredFields, geocoded).1.businessName == "Unknown Business"
  {
    MissingOfRequired(MockAnalysis);
  }
}
