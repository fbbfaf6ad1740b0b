/** What both business-card scripts share: the data read off a card and
    the rule that decides whether a required field is missing. */
module BusinessCard {
  import opened Wrappers
  import opened Text

  datatype Address = Address(street: Option<string>, city: Option<string>, state: Option<string>, zip: Option<string>)

  /** The fields read off a card; each may be absent. */
  datatype CardInfo = CardInfo(
    name: Option<string>,
    phone: Option<string>,
    email: Option<string>,
    businessName: Option<string>,
    address: Option<Address>,
    website: Option<string>,
    title: Option<string>,
    notes: Option<string>)

  /** The required fields, in the order they are checked. */
  const RequiredFields: seq<string> := ["name", "phone", "email", "address"]

  /** `address?.street`. */
  function Street(data: CardInfo): Option<string> {
    if data.address.Some? then data.address.value.street else None
  }

  /** The value a required field is judged by; the address by its street. */
  function FieldValue(data: CardInfo, f: string): Option<string> {
    if f == "name" then data.name
    else if f == "phone" then data.phone
    else if f == "email" then data.email
    else if f == "address" then Street(data)
    else None
  }

  /** A value counts as missing when it is absent, empty or "Unknown". */
  predicate Absent(v: Option<string>) {
    !Truthy(v) || v.value == "Unknown"
  }

  /** The missing fields among `fields`, in their order: exactly the listed
      fields whose value is absent, and no more of them than there are
      fields. */
  function MissingOf(data: CardInfo, fields: seq<string>): (r: seq<string>)
    ensures |r| <= |fields|
    ensures forall f :: f in r <==> f in fields && Absent(FieldValue(data, f))
  {
    if fields == [] then []
    else
      var f := fields[|fields| - 1];
      assert fields == fields[..|fields| - 1] + [f];
      MissingOf(data, fields[..|fields| - 1]) + (if Absent(FieldValue(data, f)) then [f] else [])
  }

  /** The fields among `fields` that are present, in their order. */
  function PresentOf(data: CardInfo, fields: seq<string>): seq<string> {
    if fields == [] then []
    else
      var f := fields[|fields| - 1];
      PresentOf(data, fields[..|fields| - 1]) + (if Absent(FieldValue(data, f)) then [] else [f])
  }

  /** Every field is either missing or present, never both: the present
      fields are exactly the listed fields whose value is not absent, and
      the two lists together are as long as the list of fields. */
  lemma {:induction false} MissingPresentPartition(data: CardInfo, fields: seq<string>)
    ensures forall f :: f in PresentOf(data, fields) <==> f in fields && !Absent(FieldValue(data, f))
    ensures |MissingOf(data, fields)| + |PresentOf(data, fields)| == |fields|
  {
    if fields != [] {
      var init := fields[..|fields| - 1];
      MissingPresentPartition(data, init);
      assert fields == init + [fields[|fields| - 1]];
    }
  }

  lemma MissingOfSnoc(data: CardInfo, fields: seq<string>, f: string)
    ensures MissingOf(data, fields + [f]) == MissingOf(data, fields) + (if Absent(FieldValue(data, f)) then [f] else [])
  {
    assert (fields + [f])[..|fields|] == fields;
  }

  /** `missing` lists the missing fields of `fields` in order exactly when it
      is built by keeping each field, in turn, that is missing. */
  lemma MissingOfRequired(data: CardInfo)
    ensures MissingOf(data, RequiredFields) ==
              (if Absent(data.name) then ["name"] else [])
              + (if Absent(data.phone) then ["phone"] else [])
              + (if Absent(data.email) then ["email"] else [])
              + (if Absent(Street(data)) then ["address"] else [])
  {
    var f1: seq<string> := [] + ["name"];
    var f2 := f1 + ["phone"];
    var f3 := f2 + ["email"];
    assert f3 + ["address"] == RequiredFields;
    MissingOfSnoc(data, [], "name");
    MissingOfSnoc(data, f1, "phone");
    MissingOfSnoc(data, f2, "email");
    MissingOfSnoc(data, f3, "address");
  }
}
