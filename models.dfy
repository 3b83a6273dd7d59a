/** The property record of the listing API: the status values, the field
    constraints of the create and update models, the full record with its
    system fields, creation, in-place update, and the conversion to and from
    a stored item. Decimal fields are exact rationals. */
module Models {
  import opened Values

  const ACTIVE := "active"
  const SOLD := "sold"
  const PENDING := "pending"
  const OFF_MARKET := "off_market"

  /** The four statuses, in the order the validator lists them. */
  const VALID_STATUSES: seq<string> := [ACTIVE, SOLD, PENDING, OFF_MARKET]

  /** The validator's message: the prefix followed by Python's rendering of
      the status list. */
  const STATUS_ERROR := "Status must be one of: ['active', 'sold', 'pending', 'off_market']"

  /** Membership in the status list. */
  predicate ValidStatus(s: string) {
    s == ACTIVE || s == SOLD || s == PENDING || s == OFF_MARKET
  }

  /** The outcome of a field validator: the accepted value, or the message of
      the ValueError it raises. */
  datatype Checked<T> = Accepted(value: T) | Rejected(message: string)

  /** `validate_status` of the create model. */
  function ValidateStatus(v: string): (r: Checked<string>)
    ensures r.Accepted? <==> v in VALID_STATUSES
    ensures r.Accepted? <==> ValidStatus(v)
    ensures r.Accepted? ==> r.value == v
    ensures r.Rejected? ==> r.message == STATUS_ERROR
  {
    if v in VALID_STATUSES then Accepted(v) else Rejected(STATUS_ERROR)
  }

  /** `validate_status` of the update model: `None` passes unchecked. */
  function ValidateOptionalStatus(v: Option<string>): (r: Checked<Option<string>>)
    ensures r.Accepted? <==> v.None? || ValidStatus(v.value)
    ensures r.Accepted? ==> r.value == v
    ensures r.Rejected? ==> r.message == STATUS_ERROR
  {
    match v
    case None => Accepted(None)
    case Some(s) => if ValidateStatus(s).Accepted? then Accepted(v) else Rejected(STATUS_ERROR)
  }

  // The field constraints shared by the create and update models.
  predicate ValidAddress(s: string) { 5 <= |s| <= 500 }
  predicate ValidPrice(x: real) { x > 0.0 }
  predicate ValidLocation(s: string) { 2 <= |s| <= 100 }
  predicate ValidPropertyType(s: string) { 2 <= |s| <= 50 }
  predicate ValidBedrooms(o: Option<int>) { o.None? || 0 <= o.value <= 20 }
  predicate ValidBathrooms(o: Option<real>) { o.None? || 0.0 <= o.value <= 10.0 }
  predicate ValidSquareFeet(o: Option<int>) { o.None? || o.value > 0 }
  predicate ValidDescription(o: Option<string>) { o.None? || |o.value| <= 2000 }

  /** The fields of the create model. */
  datatype PropertyData = PropertyData(
    address: string,
    price: real,
    location: string,
    propertyType: string,
    bedrooms: Option<int>,
    bathrooms: Option<real>,
    squareFeet: Option<int>,
    description: Option<string>,
    status: string)

  /** Every constraint of the create model. */
  predicate ValidCreate(d: PropertyData) {
    && ValidAddress(d.address)
    && ValidPrice(d.price)
    && ValidLocation(d.location)
    && ValidPropertyType(d.propertyType)
    && ValidBedrooms(d.bedrooms)
    && ValidBathrooms(d.bathrooms)
    && ValidSquareFeet(d.squareFeet)
    && ValidDescription(d.description)
    && ValidStatus(d.status)
  }

  // How a decoded item supplies a field of each kind.

  predicate StrAt(item: map<string, Value>, key: string, s: string) {
    key in item && item[key] == Str(s)
  }

  predicate NumAt(item: map<string, Value>, key: string, x: real) {
    key in item && item[key] == Number(x)
  }

  /** An optional field is `None` exactly when it is absent or null. */
  predicate Absent(item: map<string, Value>, key: string) {
    key !in item || item[key] == Null
  }

  predicate OptStrAt(item: map<string, Value>, key: string, o: Option<string>) {
    if Absent(item, key) then o.None? else o.Some? && item[key] == Str(o.value)
  }

  predicate OptNumAt(item: map<string, Value>, key: string, o: Option<real>) {
    if Absent(item, key) then o.None? else o.Some? && item[key] == Number(o.value)
  }

  predicate OptIntAt(item: map<string, Value>, key: string, o: Option<int>) {
    if Absent(item, key) then o.None? else o.Some? && item[key] == Number(o.value as real)
  }

  /** `d` is what `item` says, field by field; a missing status is "active". */
  predicate DescribesData(item: map<string, Value>, d: PropertyData) {
    && StrAt(item, "address", d.address)
    && NumAt(item, "price", d.price)
    && StrAt(item, "location", d.location)
    && StrAt(item, "property_type", d.propertyType)
    && OptIntAt(item, "bedrooms", d.bedrooms)
    && OptNumAt(item, "bathrooms", d.bathrooms)
    && OptIntAt(item, "square_feet", d.squareFeet)
    && OptStrAt(item, "description", d.description)
    && (if "status" in item then item["status"] == Str(d.status) else d.status == ACTIVE)
  }

  function GetStr(item: map<string, Value>, key: string): Option<string> {
    if key in item && item[key].Str? then Some(item[key].s) else None
  }

  function GetNum(item: map<string, Value>, key: string): Option<real> {
    if key in item && item[key].Number? then Some(item[key].n) else None
  }

  /** An optional field: `Some(None)` when absent or null, `None` when the
      value has the wrong type. */
  function GetOptStr(item: map<string, Value>, key: string): Option<Option<string>> {
    if Absent(item, key) then Some(None)
    else if item[key].Str? then Some(Some(item[key].s))
    else None
  }

  function GetOptNum(item: map<string, Value>, key: string): Option<Option<real>> {
    if Absent(item, key) then Some(None)
    else if item[key].Number? then Some(Some(item[key].n))
    else None
  }

  function GetOptInt(item: map<string, Value>, key: string): Option<Option<int>> {
    if Absent(item, key) then Some(None)
    else if item[key].Number? && IsInteger(item[key].n) then Some(Some(item[key].n.Floor))
    else None
  }

  /** Validating a decoded object against the create model: every field
      well-typed and within its bounds, or no model at all. Unknown keys are
      ignored. */
  function ParseCreate(item: map<string, Value>): (r: Option<PropertyData>)
    ensures r.Some? ==> ValidCreate(r.value) && DescribesData(item, r.value)
  {
    var address := GetStr(item, "address");
    var price := GetNum(item, "price");
    var location := GetStr(item, "location");
    var propertyType := GetStr(item, "property_type");
    var bedrooms := GetOptInt(item, "bedrooms");
    var bathrooms := GetOptNum(item, "bathrooms");
    var squareFeet := GetOptInt(item, "square_feet");
    var description := GetOptStr(item, "description");
    var status := if "status" in item then GetStr(item, "status") else Some(ACTIVE);
    if && address.Some? && price.Some? && location.Some? && propertyType.Some? && bedrooms.Some?
       && bathrooms.Some? && squareFeet.Some? && description.Some? && status.Some?
    then
      var d := PropertyData(address.value, price.value, location.value, propertyType.value, bedrooms.value,
                            bathrooms.value, squareFeet.value, description.value, status.value);
      assert DescribesData(item, d);
      if ValidCreate(d) then Some(d) else None
    else
      None
  }

  /** Every well-typed object within the bounds is accepted, as the data it
      describes. */
  lemma ParseCreateComplete(item: map<string, Value>, d: PropertyData)
    requires DescribesData(item, d) && ValidCreate(d)
    ensures ParseCreate(item) == Some(d)
  {
  }

  /** The full record. The five required fields are optional here because
      an update may set them to `None` without validation. */
  datatype PropertyRecord = PropertyRecord(
    id: string,
    address: Option<string>,
    price: Option<real>,
    location: Option<string>,
    propertyType: Option<string>,
    bedrooms: Option<int>,
    bathrooms: Option<real>,
    squareFeet: Option<int>,
    description: Option<string>,
    status: Option<string>,
    createdAt: string,
    updatedAt: string)

  predicate RequiredPresent(p: PropertyRecord) {
    p.address.Some? && p.price.Some? && p.location.Some? && p.propertyType.Some? && p.status.Some?
  }

  /** The create-model fields of a record. */
  function DataOf(p: PropertyRecord): PropertyData
    requires RequiredPresent(p)
  {
    PropertyData(p.address.value, p.price.value, p.location.value, p.propertyType.value, p.bedrooms,
                 p.bathrooms, p.squareFeet, p.description, p.status.value)
  }

  /** A record with the given system fields. */
  function WithSystemFields(d: PropertyData, id: string, createdAt: string, updatedAt: string): (p: PropertyRecord)
    ensures RequiredPresent(p) && DataOf(p) == d
    ensures p.id == id && p.createdAt == createdAt && p.updatedAt == updatedAt
  {
    PropertyRecord(id, Some(d.address), Some(d.price), Some(d.location), Some(d.propertyType), d.bedrooms,
                   d.bathrooms, d.squareFeet, d.description, Some(d.status), createdAt, updatedAt)
  }

  /** A record the full model accepts: every required field present and all
      constraints of the create model met. */
  predicate ValidRecord(p: PropertyRecord) {
    RequiredPresent(p) && ValidCreate(DataOf(p))
  }

  predicate DescribesRecord(item: map<string, Value>, p: PropertyRecord) {
    && RequiredPresent(p)
    && DescribesData(item, DataOf(p))
    && StrAt(item, "id", p.id)
    && StrAt(item, "created_at", p.createdAt)
    && StrAt(item, "updated_at", p.updatedAt)
  }

  /** `Property(**item)`: the create-model validation plus the three system
      fields, or no record at all. */
  function FromItem(item: map<string, Value>): (r: Option<PropertyRecord>)
    ensures r.Some? ==> ValidRecord(r.value) && DescribesRecord(item, r.value)
  {
    var d := ParseCreate(item);
    var id := GetStr(item, "id");
    var createdAt := GetStr(item, "created_at");
    var updatedAt := GetStr(item, "updated_at");
    if d.Some? && id.Some? && createdAt.Some? && updatedAt.Some? then
      Some(WithSystemFields(d.value, id.value, createdAt.value, updatedAt.value))
    else
      None
  }

  /** The twelve keys of a stored item. */
  const ITEM_KEYS: set<string> := {
    "id", "address", "price", "location", "property_type", "bedrooms", "bathrooms",
    "square_feet", "description", "status", "created_at", "updated_at"}

  /** `dict()` of a record: every field under its own name, `None` as null. */
  function ToItem(p: PropertyRecord): (item: map<string, Value>)
    ensures item.Keys == ITEM_KEYS
    ensures OptStrAt(item, "address", p.address) && OptNumAt(item, "price", p.price)
    ensures OptStrAt(item, "location", p.location) && OptStrAt(item, "property_type", p.propertyType)
    ensures OptIntAt(item, "bedrooms", p.bedrooms) && OptNumAt(item, "bathrooms", p.bathrooms)
    ensures OptIntAt(item, "square_feet", p.squareFeet) && OptStrAt(item, "description", p.description)
    ensures OptStrAt(item, "status", p.status)
    ensures StrAt(item, "id", p.id) && StrAt(item, "created_at", p.createdAt) && StrAt(item, "updated_at", p.updatedAt)
    ensures RequiredPresent(p) ==> DescribesRecord(item, p)
  {
    map[
      "address" := OptStr(p.address),
      "price" := OptReal(p.price),
      "location" := OptStr(p.location),
      "property_type" := OptStr(p.propertyType),
      "bedrooms" := OptInt(p.bedrooms),
      "bathrooms" := OptReal(p.bathrooms),
      "square_feet" := OptInt(p.squareFeet),
      "description" := OptStr(p.description),
      "status" := OptStr(p.status),
      "id" := Str(p.id),
      "created_at" := Str(p.createdAt),
      "updated_at" := Str(p.updatedAt)
    ]
  }

  /** Every valid record an item describes is the one read from it. */
  lemma FromItemComplete(item: map<string, Value>, p: PropertyRecord)
    requires DescribesRecord(item, p) && ValidRecord(p)
    ensures FromItem(item) == Some(p)
  {
    ParseCreateComplete(item, DataOf(p));
  }

  /** Storing a valid record and reading it back gives the same record. */
  lemma ItemRoundTrip(p: PropertyRecord)
    requires ValidRecord(p)
    ensures FromItem(ToItem(p)) == Some(p)
  {
    FromItemComplete(ToItem(p), p);
  }

  /** An item with a required field missing or null is refused. */
  lemma RequiredFieldsAreRequired(item: map<string, Value>, key: string)
    requires key in {"address", "price", "location", "property_type", "id", "created_at", "updated_at"}
    requires Absent(item, key)
    ensures FromItem(item) == None
  {
  }
  /** Creating a record: the create fields unchanged, the given id, and both
      timestamps the given clock reading. */
  function NewRecord(d: PropertyData, id: string, now: string): (p: PropertyRecord)
    ensures RequiredPresent(p) && DataOf(p) == d
    ensures p.id == id && p.createdAt == now && p.updatedAt == now
    ensures ValidRecord(p) <==> ValidCreate(d)
  {
    WithSystemFields(d, id, now, now)
  }

  /** `create_new` builds the record through the full model, which accepts
      it whenever the create fields are valid. */
  lemma NewRecordRevalidates(d: PropertyData, id: string, now: string)
    requires ValidCreate(d)
    ensures FromItem(ToItem(NewRecord(d, id, now))) == Some(NewRecord(d, id, now))
  {
    ItemRoundTrip(NewRecord(d, id, now));
  }

  /** One field of an update: left unset, or set (possibly to `None`). */
  datatype Patch<T> = Unset | Set(value: T)

  /** The update model: every field optional, and an explicit `None` is a
      set field. */
  datatype PropertyUpdate = PropertyUpdate(
    address: Patch<Option<string>>,
    price: Patch<Option<real>>,
    location: Patch<Option<string>>,
    propertyType: Patch<Option<string>>,
    bedrooms: Patch<Option<int>>,
    bathrooms: Patch<Option<real>>,
    squareFeet: Patch<Option<int>>,
    description: Patch<Option<string>>,
    status: Patch<Option<string>>)

  /** Each present, non-`None` field meets the create model's bound. */
  predicate ValidUpdate(u: PropertyUpdate) {
    && (u.address.Set? && u.address.value.Some? ==> ValidAddress(u.address.value.value))
    && (u.price.Set? && u.price.value.Some? ==> ValidPrice(u.price.value.value))
    && (u.location.Set? && u.location.value.Some? ==> ValidLocation(u.location.value.value))
    && (u.propertyType.Set? && u.propertyType.value.Some? ==> ValidPropertyType(u.propertyType.value.value))
    && (u.bedrooms.Set? ==> ValidBedrooms(u.bedrooms.value))
    && (u.bathrooms.Set? ==> ValidBathrooms(u.bathrooms.value))
    && (u.squareFeet.Set? ==> ValidSquareFeet(u.squareFeet.value))
    && (u.description.Set? ==> ValidDescription(u.description.value))
    && (u.status.Set? && u.status.value.Some? ==> ValidStatus(u.status.value.value))
  }

  /** A field is unset exactly when its key is absent; a null sets it to
      `None`. */
  predicate PatchStrAt(item: map<string, Value>, key: string, p: Patch<Option<string>>) {
    if key !in item then p.Unset? else p.Set? && OptStrAt(item, key, p.value)
  }

  predicate PatchNumAt(item: map<string, Value>, key: string, p: Patch<Option<real>>) {
    if key !in item then p.Unset? else p.Set? && OptNumAt(item, key, p.value)
  }

  predicate PatchIntAt(item: map<string, Value>, key: string, p: Patch<Option<int>>) {
    if key !in item then p.Unset? else p.Set? && OptIntAt(item, key, p.value)
  }

  predicate DescribesUpdate(item: map<string, Value>, u: PropertyUpdate) {
    && PatchStrAt(item, "address", u.address)
    && PatchNumAt(item, "price", u.price)
    && PatchStrAt(item, "location", u.location)
    && PatchStrAt(item, "property_type", u.propertyType)
    && PatchIntAt(item, "bedrooms", u.bedrooms)
    && PatchNumAt(item, "bathrooms", u.bathrooms)
    && PatchIntAt(item, "square_feet", u.squareFeet)
    && PatchStrAt(item, "description", u.description)
    && PatchStrAt(item, "status", u.status)
  }

  /** Reading an update field: unset when the key is absent, set to `None`
      by a null, set to the value when well-typed, refused otherwise. */
  function PatchStr(item: map<string, Value>, key: string): (r: Option<Patch<Option<string>>>)
    ensures r.Some? <==> key !in item || item[key] == Null || item[key].Str?
    ensures r.Some? ==> PatchStrAt(item, key, r.value)
  {
    if key !in item then Some(Unset)
    else
      var o := GetOptStr(item, key);
      if o.Some? then Some(Set(o.value)) else None
  }

  function PatchNum(item: map<string, Value>, key: string): (r: Option<Patch<Option<real>>>)
    ensures r.Some? <==> key !in item || item[key] == Null || item[key].Number?
    ensures r.Some? ==> PatchNumAt(item, key, r.value)
  {
    if key !in item then Some(Unset)
    else
      var o := GetOptNum(item, key);
      if o.Some? then Some(Set(o.value)) else None
  }

  function PatchInt(item: map<string, Value>, key: string): (r: Option<Patch<Option<int>>>)
    ensures r.Some? <==> key !in item || item[key] == Null || (item[key].Number? && IsInteger(item[key].n))
    ensures r.Some? ==> PatchIntAt(item, key, r.value)
  {
    if key !in item then Some(Unset)
    else
      var o := GetOptInt(item, key);
      if o.Some? then Some(Set(o.value)) else None
  }

  /** Validating a decoded object against the update model. */
  function ParseUpdate(item: map<string, Value>): (r: Option<PropertyUpdate>)
    ensures r.Some? ==> ValidUpdate(r.value)
    ensures r.Some? ==> DescribesUpdate(item, r.value)
  {
    var address := PatchStr(item, "address");
    var price := PatchNum(item, "price");
    var location := PatchStr(item, "location");
    var propertyType := PatchStr(item, "property_type");
    var bedrooms := PatchInt(item, "bedrooms");
    var bathrooms := PatchNum(item, "bathrooms");
    var squareFeet := PatchInt(item, "square_feet");
    var description := PatchStr(item, "description");
    var status := PatchStr(item, "status");
    if && address.Some? && price.Some? && location.Some? && propertyType.Some? && bedrooms.Some?
       && bathrooms.Some? && squareFeet.Some? && description.Some? && status.Some?
    then
      var u := PropertyUpdate(address.value, price.value, location.value, propertyType.value, bedrooms.value,
                              bathrooms.value, squareFeet.value, description.value, status.value);
      assert DescribesUpdate(item, u);
      if ValidUpdate(u) then Some(u) else None
    else
      None
  }

  /** Every well-typed object within the bounds is accepted, as the update
      it describes. */
  lemma ParseUpdateComplete(item: map<string, Value>, u: PropertyUpdate)
    requires DescribesUpdate(item, u) && ValidUpdate(u)
    ensures ParseUpdate(item) == Some(u)
  {
    assert PatchStr(item, "address") == Some(u.address);
    assert PatchNum(item, "price") == Some(u.price);
    assert PatchStr(item, "location") == Some(u.location);
    assert PatchStr(item, "property_type") == Some(u.propertyType);
    assert PatchInt(item, "bedrooms") == Some(u.bedrooms);
    assert PatchNum(item, "bathrooms") == Some(u.bathrooms);
    assert PatchInt(item, "square_feet") == Some(u.squareFeet);
    assert PatchStr(item, "description") == Some(u.description);
    assert PatchStr(item, "status") == Some(u.status);
  }

  /** Some field of the update is set. */
  predicate Touched(u: PropertyUpdate) {
    || u.address.Set? || u.price.Set? || u.location.Set? || u.propertyType.Set? || u.bedrooms.Set?
    || u.bathrooms.Set? || u.squareFeet.Set? || u.description.Set? || u.status.Set?
  }

  /** The nine keys of the update model. */
  const UPDATE_KEYS: set<string> := {
    "address", "price", "location", "property_type", "bedrooms", "bathrooms",
    "square_feet", "description", "status"}

  /** An accepted update sets some field exactly when the object carries one
      of the update model's keys (a null counts). */
  lemma ParsedUpdateTouched(item: map<string, Value>)
    requires ParseUpdate(item).Some?
    ensures Touched(ParseUpdate(item).value) <==> exists k :: k in UPDATE_KEYS && k in item
  {
    var u := ParseUpdate(item).value;
    if Touched(u) {
      var k :| k in UPDATE_KEYS && k in item by {
        if u.address.Set? { assert "address" in UPDATE_KEYS && "address" in item; }
        else if u.price.Set? { assert "price" in UPDATE_KEYS && "price" in item; }
        else if u.location.Set? { assert "location" in UPDATE_KEYS && "location" in item; }
        else if u.propertyType.Set? { assert "property_type" in UPDATE_KEYS && "property_type" in item; }
        else if u.bedrooms.Set? { assert "bedrooms" in UPDATE_KEYS && "bedrooms" in item; }
        else if u.bathrooms.Set? { assert "bathrooms" in UPDATE_KEYS && "bathrooms" in item; }
        else if u.squareFeet.Set? { assert "square_feet" in UPDATE_KEYS && "square_feet" in item; }
        else if u.description.Set? { assert "description" in UPDATE_KEYS && "description" in item; }
        else { assert "status" in UPDATE_KEYS && "status" in item; }
      }
    }
  }

  /** Some required field is set to `None`. */
  predicate ClearsRequired(u: PropertyUpdate) {
    || u.address == Set(None) || u.price == Set(None) || u.location == Set(None)
    || u.propertyType == Set(None) || u.status == Set(None)
  }

  function Patched<T>(v: T, p: Patch<T>): T {
    if p.Set? then p.value else v
  }

  /** The intended effect of an update: each set field takes its new value,
      everything else (id and created_at included) stays, and updated_at is
      `now` when some field was set. */
  function Updated(p: PropertyRecord, u: PropertyUpdate, now: string): PropertyRecord {
    PropertyRecord(
      p.id,
      Patched(p.address, u.address),
      Patched(p.price, u.price),
      Patched(p.location, u.location),
      Patched(p.propertyType, u.propertyType),
      Patched(p.bedrooms, u.bedrooms),
      Patched(p.bathrooms, u.bathrooms),
      Patched(p.squareFeet, u.squareFeet),
      Patched(p.description, u.description),
      Patched(p.status, u.status),
      p.createdAt,
      if Touched(u) then now else p.updatedAt)
  }

  /** An update never changes id or created_at, and moves updated_at to
      `now` exactly when it sets some field. */
  lemma UpdateTimestamps(p: PropertyRecord, u: PropertyUpdate, now: string)
    ensures Updated(p, u, now).id == p.id && Updated(p, u, now).createdAt == p.createdAt
    ensures Touched(u) ==> Updated(p, u, now).updatedAt == now
    ensures !Touched(u) ==> Updated(p, u, now).updatedAt == p.updatedAt
  {
  }

  /** An update with nothing set changes nothing, not even updated_at. */
  lemma EmptyUpdateIsIdentity(p: PropertyRecord, u: PropertyUpdate, now: string)
    requires !Touched(u)
    ensures Updated(p, u, now) == p
  {
  }

  /** Applying the same update twice at the same moment is applying it once. */
  lemma UpdateIdempotent(p: PropertyRecord, u: PropertyUpdate, now: string)
    ensures Updated(Updated(p, u, now), u, now) == Updated(p, u, now)
  {
  }

  /** A valid update that sets no required field to `None` keeps a valid
      record valid: each field is either the record's or the update's, and
      both meet the field's bound. */
  lemma UpdateKeepsValid(p: PropertyRecord, u: PropertyUpdate, now: string)
    requires ValidRecord(p) && ValidUpdate(u) && !ClearsRequired(u)
    ensures ValidRecord(Updated(p, u, now))
  {
    var r := Updated(p, u, now);
    assert r.address.Some? && ValidAddress(r.address.value);
    assert r.price.Some? && ValidPrice(r.price.value);
    assert r.location.Some? && ValidLocation(r.location.value);
    assert r.propertyType.Some? && ValidPropertyType(r.propertyType.value);
    assert r.status.Some? && ValidStatus(r.status.value);
    assert ValidBedrooms(r.bedrooms) && ValidBathrooms(r.bathrooms);
    assert ValidSquareFeet(r.squareFeet) && ValidDescription(r.description);
  }

  /** A valid update keeps a valid record valid exactly when it does not set
      a required field to `None` (the assignment is not validated). */
  lemma UpdatePreservesValidity(p: PropertyRecord, u: PropertyUpdate, now: string)
    requires ValidRecord(p) && ValidUpdate(u)
    ensures ValidRecord(Updated(p, u, now)) <==> !ClearsRequired(u)
  {
    if !ClearsRequired(u) {
      UpdateKeepsValid(p, u, now);
    } else {
      assert !RequiredPresent(Updated(p, u, now));
    }
  }

  /** One `setattr(self, key, value)` of the update loop. */
  datatype Assignment =
    | SetAddress(address: Option<string>)
    | SetPrice(price: Option<real>)
    | SetLocation(location: Option<string>)
    | SetPropertyType(propertyType: Option<string>)
    | SetBedrooms(bedrooms: Option<int>)
    | SetBathrooms(bathrooms: Option<real>)
    | SetSquareFeet(squareFeet: Option<int>)
    | SetDescription(description: Option<string>)
    | SetStatus(status: Option<string>)
    | SetUpdatedAt(updatedAt: string)

  function Assign(p: PropertyRecord, a: Assignment): PropertyRecord {
    match a
    case SetAddress(v) => p.(address := v)
    case SetPrice(v) => p.(price := v)
    case SetLocation(v) => p.(location := v)
    case SetPropertyType(v) => p.(propertyType := v)
    case SetBedrooms(v) => p.(bedrooms := v)
    case SetBathrooms(v) => p.(bathrooms := v)
    case SetSquareFeet(v) => p.(squareFeet := v)
    case SetDescription(v) => p.(description := v)
    case SetStatus(v) => p.(status := v)
    case SetUpdatedAt(v) => p.(updatedAt := v)
  }

  /** The assignments of a sequence, performed in order. */
  function AssignAll(p: PropertyRecord, s: seq<Assignment>): PropertyRecord {
    if s == [] then p else Assign(AssignAll(p, s[..|s| - 1]), s[|s| - 1])
  }

  /** The assignment `a` when `present` holds, otherwise none. */
  function When(present: bool, a: Assignment): seq<Assignment> {
    if present then [a] else []
  }

  /** The set fields among address, price and location, in that order. */
  function FirstChanges(u: PropertyUpdate): seq<Assignment> {
    When(u.address.Set?, SetAddress(Patched(None, u.address)))
    + When(u.price.Set?, SetPrice(Patched(None, u.price)))
    + When(u.location.Set?, SetLocation(Patched(None, u.location)))
  }

  /** The set fields among property type, bedrooms and bathrooms. */
  function MiddleChanges(u: PropertyUpdate): seq<Assignment> {
    When(u.propertyType.Set?, SetPropertyType(Patched(None, u.propertyType)))
    + When(u.bedrooms.Set?, SetBedrooms(Patched(None, u.bedrooms)))
    + When(u.bathrooms.Set?, SetBathrooms(Patched(None, u.bathrooms)))
  }

  /** The set fields among square feet, description and status. */
  function LastChanges(u: PropertyUpdate): seq<Assignment> {
    When(u.squareFeet.Set?, SetSquareFeet(Patched(None, u.squareFeet)))
    + When(u.description.Set?, SetDescription(Patched(None, u.description)))
    + When(u.status.Set?, SetStatus(Patched(None, u.status)))
  }

  /** `update_data.dict(exclude_unset=True)`: one assignment per set field,
      in the model's field order. */
  function Changes(u: PropertyUpdate): (c: seq<Assignment>)
    ensures c == [] <==> !Touched(u)
  {
    FirstChanges(u) + MiddleChanges(u) + LastChanges(u)
  }

  /** Performing the assignment `a` if `present`. */
  lemma AssignWhen(q: PropertyRecord, present: bool, a: Assignment)
    ensures AssignAll(q, When(present, a)) == if present then Assign(q, a) else q
  {
    if present {
      assert When(present, a)[..0] == [];
    }
  }

  /** Performing one more assignment after a sequence of them. */
  lemma AssignAllSnoc(p: PropertyRecord, s: seq<Assignment>, a: Assignment)
    ensures AssignAll(p, s + [a]) == Assign(AssignAll(p, s), a)
  {
    assert (s + [a])[..|s|] == s;
  }

  /** Performing a sequence and then possibly one more assignment. */
  lemma AssignAllWhen(p: PropertyRecord, s: seq<Assignment>, present: bool, a: Assignment)
    ensures AssignAll(p, s + When(present, a)) == if present then Assign(AssignAll(p, s), a) else AssignAll(p, s)
  {
    if present {
      AssignAllSnoc(p, s, a);
    } else {
      assert s + When(present, a) == s;
    }
  }

  /** Performing `a` and then `b` is performing `a + b`. */
  lemma {:induction false} AssignAllAppend(p: PropertyRecord, a: seq<Assignment>, b: seq<Assignment>)
    ensures AssignAll(p, a + b) == AssignAll(AssignAll(p, a), b)
  {
    if b == [] {
      assert a + b == a;
    } else {
      var b' := b[..|b| - 1];
      AssignAllAppend(p, a, b');
      assert a + b == (a + b') + [b[|b| - 1]];
      AssignAllSnoc(p, a + b', b[|b| - 1]);
      assert b == b' + [b[|b| - 1]];
      AssignAllSnoc(AssignAll(p, a), b', b[|b| - 1]);
    }
  }

  /** Performing the changes of the address, price and location fields. */
  lemma FirstChangesApply(q: PropertyRecord, u: PropertyUpdate)
    ensures AssignAll(q, FirstChanges(u))
         == q.(address := Patched(q.address, u.address), price := Patched(q.price, u.price),
               location := Patched(q.location, u.location))
  {
    var a1 := When(u.address.Set?, SetAddress(Patched(None, u.address)));
    var a2 := When(u.price.Set?, SetPrice(Patched(None, u.price)));
    AssignWhen(q, u.address.Set?, SetAddress(Patched(None, u.address)));
    AssignAllWhen(q, a1, u.price.Set?, SetPrice(Patched(None, u.price)));
    AssignAllWhen(q, a1 + a2, u.location.Set?, SetLocation(Patched(None, u.location)));
  }

  /** Performing the changes of the property type, bedrooms and bathrooms. */
  lemma MiddleChangesApply(q: PropertyRecord, u: PropertyUpdate)
    ensures AssignAll(q, MiddleChanges(u))
         == q.(propertyType := Patched(q.propertyType, u.propertyType), bedrooms := Patched(q.bedrooms, u.bedrooms),
               bathrooms := Patched(q.bathrooms, u.bathrooms))
  {
    var a1 := When(u.propertyType.Set?, SetPropertyType(Patched(None, u.propertyType)));
    var a2 := When(u.bedrooms.Set?, SetBedrooms(Patched(None, u.bedrooms)));
    AssignWhen(q, u.propertyType.Set?, SetPropertyType(Patched(None, u.propertyType)));
    AssignAllWhen(q, a1, u.bedrooms.Set?, SetBedrooms(Patched(None, u.bedrooms)));
    AssignAllWhen(q, a1 + a2, u.bathrooms.Set?, SetBathrooms(Patched(None, u.bathrooms)));
  }

  /** Performing the changes of the square feet, description and status. */
  lemma LastChangesApply(q: PropertyRecord, u: PropertyUpdate)
    ensures AssignAll(q, LastChanges(u))
         == q.(squareFeet := Patched(q.squareFeet, u.squareFeet), description := Patched(q.description, u.description),
               status := Patched(q.status, u.status))
  {
    var a1 := When(u.squareFeet.Set?, SetSquareFeet(Patched(None, u.squareFeet)));
    var a2 := When(u.description.Set?, SetDescription(Patched(None, u.description)));
    AssignWhen(q, u.squareFeet.Set?, SetSquareFeet(Patched(None, u.squareFeet)));
    AssignAllWhen(q, a1, u.description.Set?, SetDescription(Patched(None, u.description)));
    AssignAllWhen(q, a1 + a2, u.status.Set?, SetStatus(Patched(None, u.status)));
  }

  /** Performing the changes of an update, one field after another, gives
      the intended record, with updated_at still the old one. */
  lemma ChangesApply(p: PropertyRecord, u: PropertyUpdate)
    ensures AssignAll(p, Changes(u)) == Updated(p, u, p.updatedAt)
  {
    var first, middle, last := FirstChanges(u), MiddleChanges(u), LastChanges(u);
    AssignAllAppend(p, first + middle, last);
    AssignAllAppend(p, first, middle);
    FirstChangesApply(p, u);
    MiddleChangesApply(AssignAll(p, first), u);
    LastChangesApply(AssignAll(p, first + middle), u);
  }

  /** A property whose fields the update loop assigns in place. */
  class Property {
    var id: string
    var address: Option<string>
    var price: Option<real>
    var location: Option<string>
    var propertyType: Option<string>
    var bedrooms: Option<int>
    var bathrooms: Option<real>
    var squareFeet: Option<int>
    var description: Option<string>
    var status: Option<string>
    var createdAt: string
    var updatedAt: string

    /** The current field values as a record. */
    function Snapshot(): PropertyRecord
      reads this
    {
      PropertyRecord(id, address, price, location, propertyType, bedrooms, bathrooms, squareFeet,
                     description, status, createdAt, updatedAt)
    }

    /** An object holding the fields of `p`. */
    constructor (p: PropertyRecord)
      ensures Snapshot() == p
    {
      id, address, price, location, propertyType := p.id, p.address, p.price, p.location, p.propertyType;
      bedrooms, bathrooms, squareFeet, description := p.bedrooms, p.bathrooms, p.squareFeet, p.description;
      status, createdAt, updatedAt := p.status, p.createdAt, p.updatedAt;
    }

    /** `create_new`, with the uuid and the clock reading passed in. */
    static method CreateNew(data: PropertyData, id: string, now: string) returns (p: Property)
      requires ValidCreate(data)
      ensures fresh(p)
      ensures p.Snapshot() == NewRecord(data, id, now) && ValidRecord(p.Snapshot())
    {
      p := new Property(NewRecord(data, id, now));
    }

    /** `setattr(self, key, value)`: one field replaced, without validation. */
    method SetAttr(a: Assignment)
      modifies this
      ensures Snapshot() == Assign(old(Snapshot()), a)
    {
      match a
      case SetAddress(v) => address := v;
      case SetPrice(v) => price := v;
      case SetLocation(v) => location := v;
      case SetPropertyType(v) => propertyType := v;
      case SetBedrooms(v) => bedrooms := v;
      case SetBathrooms(v) => bathrooms := v;
      case SetSquareFeet(v) => squareFeet := v;
      case SetDescription(v) => description := v;
      case SetStatus(v) => status := v;
      case SetUpdatedAt(v) => updatedAt := v;
    }

    /** The `setattr` loop: the assignments performed in order. */
    method AssignEach(updates: seq<Assignment>)
      modifies this
      ensures Snapshot() == AssignAll(old(Snapshot()), updates)
    {
      for i := 0 to |updates|
        invariant Snapshot() == AssignAll(old(Snapshot()), updates[..i])
      {
        assert updates[..i + 1] == updates[..i] + [updates[i]];
        AssignAllSnoc(old(Snapshot()), updates[..i], updates[i]);
        SetAttr(updates[i]);
      }
      assert updates[..|updates|] == updates;
    }

    /** `update_fields`: when some field is set, every set field and then
        updated_at are assigned in place; the object itself is returned. */
    method UpdateFields(u: PropertyUpdate, now: string) returns (result: Property)
      modifies this
      ensures result == this
      ensures Snapshot() == Updated(old(Snapshot()), u, now)
    {
      var updates := Changes(u);
      if updates != [] {
        updates := updates + [SetUpdatedAt(now)];
        AssignEach(updates);
        AssignAllSnoc(old(Snapshot()), Changes(u), SetUpdatedAt(now));
        ChangesApply(old(Snapshot()), u);
      }
      result := this;
    }

    /** `to_dynamodb_item`: the twelve fields as an item, from which a valid
        record reads back unchanged. */
    function ToDynamoDbItem(): (item: map<string, Value>)
      reads this
      ensures item == ToItem(Snapshot())
      ensures item.Keys == ITEM_KEYS
      ensures ValidRecord(Snapshot()) ==> FromItem(item) == Some(Snapshot())
    {
      var p := Snapshot();
      if ValidRecord(p) then ItemRoundTrip(p); ToItem(p) else ToItem(p)
    }

    /** `from_dynamodb_item`: a new object when the item validates, none
        (the model raises) otherwise. */
    static method FromDynamoDbItem(item: map<string, Value>) returns (p: Option<Property>)
      ensures p.Some? <==> FromItem(item).Some?
      ensures p.Some? ==> fresh(p.value) && p.value.Snapshot() == FromItem(item).value
      ensures p.Some? ==> ValidRecord(p.value.Snapshot())
    {
      var r := FromItem(item);
      if r.Some? {
        var q := new Property(r.value);
        p := Some(q);
      } else {
        p := None;
      }
    }
  }
}
