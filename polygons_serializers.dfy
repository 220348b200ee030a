/** polygons/serializers.py: GeometrySerializer (input validation of a
    GeoJSON Polygon with a single ring), the write serializer's `create`, and
    the fields of the two read serializers. */
module PolygonSerializers {
  import opened Wrappers
  import opened Json
  import opened RestFields
  import opened PyText
  import opened PolygonUtils

  const TypeMsg := "The value of this field should be \"Polygon\"."
  const StructureMsg := "This field should follows GeoJSON object structure."
  const VertexCountMsg := "A Polygon should has at least 4 vertex points."
  const ArityMsg := "Every coordinate should has 2 values."
  const ClosureMsg := "First and last value coordinates should match."

  // ---------------------------------------------------------------------
  // validate_type

  /** validate_type: "Polygon" passes unchanged; any other value is refused. */
  function ValidateType(value: string): (r: Result<string>)
    ensures r.Ok? <==> value == PolygonType
    ensures r.Ok? ==> r.value == value
    ensures r.Err? ==> r.error == TypeMsg
  {
    if value == PolygonType then Ok(value) else Err(TypeMsg)
  }

  // ---------------------------------------------------------------------
  // validate_coordinates

  /** lists_matches (not defined in polygons/utils.py): taken to compare two
      positions value by value. */
  function ListsMatch(a: Position, b: Position): (r: bool)
    ensures r <==> a == b
  {
    |a| == |b| && forall k :: 0 <= k < |a| ==> a[k] == b[k]
  }

  predicate AllPairs(ring: Ring) {
    forall k :: 0 <= k < |ring| ==> |ring[k]| == 2
  }

  /** A closed linear ring in the sense of section 3.1.6 of RFC 7946: at
      least four positions, each a pair, the last equal to the first. */
  predicate IsLinearRing(ring: Ring) {
    |ring| >= 4 && AllPairs(ring) && ring[0] == ring[|ring| - 1]
  }

  /** A Polygon's coordinates with exactly one ring (no holes). */
  predicate IsSingleRingPolygon(c: Coordinates) {
    |c| == 1 && IsLinearRing(c[0])
  }

  /** What validate_coordinates returns or raises, check by check. */
  function CoordinatesVerdict(value: Coordinates): (r: Result<Coordinates>)
    ensures r.Ok? ==> r.value == value && IsSingleRingPolygon(value)
    ensures r.Err? ==> r.error in {StructureMsg, VertexCountMsg, ArityMsg, ClosureMsg}
  {
    if |value| != 1 then Err(StructureMsg)
    else if |value[0]| < 4 then Err(VertexCountMsg)
    else if !AllPairs(value[0]) then Err(ArityMsg)
    else if !ListsMatch(value[0][0], value[0][|value[0]| - 1]) then Err(ClosureMsg)
    else Ok(value)
  }

  /** validate_coordinates, with its loop over the ring. */
  method ValidateCoordinates(value: Coordinates) returns (r: Result<Coordinates>)
    ensures r == CoordinatesVerdict(value)
  {
    if |value| != 1 {
      return Err(StructureMsg);
    }
    var coordsList := value[0];
    if |coordsList| < 4 {
      return Err(VertexCountMsg);
    }
    for i := 0 to |coordsList|
      invariant forall k :: 0 <= k < i ==> |coordsList[k]| == 2
    {
      if |coordsList[i]| != 2 {
        return Err(ArityMsg);
      }
    }
    if !ListsMatch(coordsList[0], coordsList[|coordsList| - 1]) {
      return Err(ClosureMsg);
    }
    return Ok(value);
  }

  /** The coordinates are accepted, and returned unchanged, exactly when they
      form a single closed ring of at least four pairs. */
  lemma CoordinatesAcceptedIffSingleRing(value: Coordinates)
    ensures CoordinatesVerdict(value).Ok? <==> IsSingleRingPolygon(value)
    ensures CoordinatesVerdict(value).Ok? ==> CoordinatesVerdict(value).value == value
  {
  }

  /** The four checks run in order and the first that fails decides the one
      message: each message is raised exactly when every earlier check has
      passed and its own fails. */
  lemma CoordinatesCheckOrder(value: Coordinates)
    ensures CoordinatesVerdict(value) == Err(StructureMsg) <==> |value| != 1
    ensures CoordinatesVerdict(value) == Err(VertexCountMsg) <==> |value| == 1 && |value[0]| < 4
    ensures CoordinatesVerdict(value) == Err(ArityMsg)
            <==> |value| == 1 && |value[0]| >= 4 && exists k :: 0 <= k < |value[0]| && |value[0][k]| != 2
    ensures CoordinatesVerdict(value) == Err(ClosureMsg)
            <==> |value| == 1 && IsLinearRingButOpen(value[0])
    ensures CoordinatesVerdict(value).Err? ==>
              CoordinatesVerdict(value).error in {StructureMsg, VertexCountMsg, ArityMsg, ClosureMsg}
  {
    MessagesDistinct();
  }

  /** Four or more pairs whose last differs from the first. */
  predicate IsLinearRingButOpen(ring: Ring) {
    |ring| >= 4 && AllPairs(ring) && ring[0] != ring[|ring| - 1]
  }

  lemma MessagesDistinct()
    ensures StructureMsg != VertexCountMsg && StructureMsg != ArityMsg && StructureMsg != ClosureMsg
    ensures VertexCountMsg != ArityMsg && VertexCountMsg != ClosureMsg && ArityMsg != ClosureMsg
  {
    assert VertexCountMsg[44] == 's' && ClosureMsg[44] == 'h';
  }

  // ---------------------------------------------------------------------
  // The declared fields: type = CharField(), coordinates = three nested
  // ListFields around an IntegerField

  function PositionField(j: Json): Result<Position> {
    ListField(j, IntegerField)
  }

  function RingField(j: Json): Result<Ring> {
    ListField(j, PositionField)
  }

  function CoordinatesListField(j: Json): Result<Coordinates> {
    ListField(j, RingField)
  }

  function EncodeInt(i: int): Json {
    JInt(i)
  }

  function EncodePosition(p: Position): Json {
    JList(EncodeEach(p, EncodeInt))
  }

  function EncodeRing(ring: Ring): Json {
    JList(EncodeEach(ring, EncodePosition))
  }

  /** The JSON form of a coordinates value: lists of lists of lists of integers. */
  function EncodeCoordinates(c: Coordinates): Json {
    JList(EncodeEach(c, EncodeRing))
  }

  /** A JSON value the position field reads as `p`: a list of as many
      items, each read by the integer field as the matching value. */
  predicate ReadsAsPosition(j: Json, p: Position) {
    j.JList? && |j.items| == |p| && forall k :: 0 <= k < |p| ==> IntegerField(j.items[k]) == Ok(p[k])
  }

  predicate ReadsAsRing(j: Json, ring: Ring) {
    j.JList? && |j.items| == |ring| && forall k :: 0 <= k < |ring| ==> ReadsAsPosition(j.items[k], ring[k])
  }

  /** A JSON value the `coordinates` list fields read as `c`: lists nested
      three deep with the shape of `c`, holding integers or integer text. */
  predicate ReadsAsCoordinates(j: Json, c: Coordinates) {
    j.JList? && |j.items| == |c| && forall k :: 0 <= k < |c| ==> ReadsAsRing(j.items[k], c[k])
  }

  lemma PositionFieldReads(j: Json, p: Position)
    ensures PositionField(j) == Ok(p) <==> ReadsAsPosition(j, p)
  {
    ListFieldOk(j, IntegerField, p);
  }

  lemma RingFieldReads(j: Json, ring: Ring)
    ensures RingField(j) == Ok(ring) <==> ReadsAsRing(j, ring)
  {
    ListFieldOk(j, PositionField, ring);
    if j.JList? && |j.items| == |ring| {
      forall k | 0 <= k < |ring|
        ensures PositionField(j.items[k]) == Ok(ring[k]) <==> ReadsAsPosition(j.items[k], ring[k])
      {
        PositionFieldReads(j.items[k], ring[k]);
      }
    }
  }

  /** The nested list fields give `c` exactly for the values that read as
      `c`; which message the others get is stated by CoordinatesNotAList,
      RingItemNotAList and PositionItemNotAList. */
  lemma CoordinatesListFieldReads(j: Json, c: Coordinates)
    ensures CoordinatesListField(j) == Ok(c) <==> ReadsAsCoordinates(j, c)
  {
    ListFieldOk(j, RingField, c);
    if j.JList? && |j.items| == |c| {
      forall k | 0 <= k < |c|
        ensures RingField(j.items[k]) == Ok(c[k]) <==> ReadsAsRing(j.items[k], c[k])
      {
        RingFieldReads(j.items[k], c[k]);
      }
    }
  }

  /** In particular the lists of lists of lists of integers themselves are
      read back unchanged. */
  lemma CoordinatesListFieldRoundTrip(c: Coordinates)
    ensures CoordinatesListField(EncodeCoordinates(c)) == Ok(c)
  {
    forall r ensures RingField(EncodeRing(r)) == Ok(r) {
      RingFieldRoundTrip(r);
    }
    ParseEachRoundTrip(c, EncodeRing, RingField);
  }

  lemma RingFieldRoundTrip(r: Ring)
    ensures RingField(EncodeRing(r)) == Ok(r)
  {
    forall p ensures PositionField(EncodePosition(p)) == Ok(p) {
      PositionFieldRoundTrip(p);
    }
    ParseEachRoundTrip(r, EncodePosition, PositionField);
  }

  lemma PositionFieldRoundTrip(p: Position)
    ensures PositionField(EncodePosition(p)) == Ok(p)
  {
    ParseEachRoundTrip(p, EncodeInt, IntegerField);
  }

  // ---------------------------------------------------------------------
  // GeometrySerializer.is_valid()

  /** The errors of a failed validation: one message per failing field, or
      a single message when the data could not be read as an object. */
  datatype ErrorDetail = FieldErrors(byField: map<string, string>) | Detail(message: string)

  datatype Validation = Valid(geometry: GeometryData) | Invalid(errors: ErrorDetail)

  const NonFieldErrorsKey := "non_field_errors"

  function NotADictMsg(typeName: string): string {
    "Invalid data. Expected a dictionary, but got " + typeName + "."
  }

  function Lookup(fields: map<string, Json>, key: string): Option<Json> {
    if key in fields then Some(fields[key]) else None
  }

  /** The `type` field: the character field, then validate_type. */
  function TypeFieldResult(v: Option<Json>): (r: Result<string>)
    ensures v.None? ==> r == Err(RequiredMsg)
    ensures r.Ok? ==> r.value == PolygonType
  {
    match CharField(v)
    case Err(e) => Err(e)
    case Ok(s) => ValidateType(s)
  }

  /** The `coordinates` field: required, then the nested list fields, then
      validate_coordinates, which therefore only sees well-typed lists. */
  function CoordinatesFieldResult(v: Option<Json>): (r: Result<Coordinates>)
    ensures v.None? ==> r == Err(RequiredMsg)
    ensures r.Ok? ==> CoordinatesListField(v.value) == r && IsSingleRingPolygon(r.value)
  {
    match v
    case None => Err(RequiredMsg)
    case Some(j) =>
      match CoordinatesListField(j)
      case Err(e) => Err(e)
      case Ok(c) => CoordinatesVerdict(c)
  }

  function FieldError<T>(key: string, r: Result<T>): map<string, string> {
    if r.Err? then map[key := r.error] else map[]
  }

  /** The validated data when both fields pass, otherwise the message of
      each failing field under its own key. */
  function Collect(t: Result<string>, c: Result<Coordinates>): Validation {
    if t.Ok? && c.Ok? then Valid(GeometryData(t.value, c.value))
    else Invalid(FieldErrors(FieldError("type", t) + FieldError("coordinates", c)))
  }

  /** Validates each field on its own and collects the failures by field
      name; keys other than `type` and `coordinates` are ignored. */
  function ValidateGeometry(data: Json): (r: Validation)
    ensures data.JNull? ==> r == Invalid(Detail(NullMsg))
    ensures !data.JNull? && !data.JObject? ==>
              r == Invalid(FieldErrors(map[NonFieldErrorsKey := NotADictMsg(PythonTypeName(data))]))
    ensures r.Valid? ==> data.JObject? && r.geometry.geometryType == PolygonType
                         && IsSingleRingPolygon(r.geometry.coordinates)
  {
    match data
    case JNull => Invalid(Detail(NullMsg))
    case JObject(fields) =>
      Collect(TypeFieldResult(Lookup(fields, "type")), CoordinatesFieldResult(Lookup(fields, "coordinates")))
    case _ => Invalid(FieldErrors(map[NonFieldErrorsKey := NotADictMsg(PythonTypeName(data))]))
  }

  /** An object is judged by its two fields' outcomes. */
  lemma ValidateObjectFields(fields: map<string, Json>)
    ensures ValidateGeometry(JObject(fields))
            == Collect(TypeFieldResult(Lookup(fields, "type")), CoordinatesFieldResult(Lookup(fields, "coordinates")))
  {
  }

  /** The `type` field accepts exactly a string that is "Polygon" once its
      surrounding whitespace is trimmed; an integer is written in decimal,
      which is never "Polygon". */
  lemma TypeFieldAcceptsPolygonOnly(v: Option<Json>)
    ensures TypeFieldResult(v).Ok? <==> v.Some? && v.value.JStr? && Strip(v.value.s) == PolygonType
    ensures TypeFieldResult(v).Ok? ==> TypeFieldResult(v).value == PolygonType
  {
    if v.Some? && v.value.JInt? {
      var s := IntString(v.value.i);
      assert IsDigit(s[0]) || s[0] == '-';
      assert PolygonType[0] == 'P';
    }
  }

  /** Stated once so that proofs about "Polygon" need not unfold `Strip`
      on the literal. */
  lemma PolygonTypeUnpadded()
    ensures Strip(PolygonType) == PolygonType
  {
    StripUnpadded(PolygonType);
  }

  /** On text that is not blank, the `type` field gives "Polygon" when the
      trimmed text is "Polygon" and the message of validate_type otherwise. */
  lemma TypeFieldOfText(s: string)
    requires Strip(s) != ""
    ensures TypeFieldResult(Some(JStr(s))) == if Strip(s) == PolygonType then Ok(PolygonType) else Err(TypeMsg)
  {
    CharFieldReadsText(s);
  }

  /** Whatever is accepted is a "Polygon" whose coordinates were given as a
      single closed ring of at least four integer pairs, and the validated
      data holds what those coordinates read as. */
  lemma ValidGeometryIsSingleRingPolygon(data: Json)
    requires ValidateGeometry(data).Valid?
    ensures data.JObject? && "type" in data.fields && "coordinates" in data.fields
    ensures data.fields["type"].JStr? && Strip(data.fields["type"].s) == PolygonType
    ensures ValidateGeometry(data).geometry.geometryType == PolygonType
    ensures ReadsAsCoordinates(data.fields["coordinates"], ValidateGeometry(data).geometry.coordinates)
    ensures IsSingleRingPolygon(ValidateGeometry(data).geometry.coordinates)
  {
    TypeFieldAcceptsPolygonOnly(Lookup(data.fields, "type"));
    var j := data.fields["coordinates"];
    CoordinatesListFieldReads(j, CoordinatesListField(j).value);
    CoordinatesAcceptedIffSingleRing(CoordinatesListField(j).value);
  }

  /** A present `coordinates` value that reads as `c` is judged by the
      checks of validate_coordinates on `c`. */
  lemma CoordinatesFieldOfReading(j: Json, c: Coordinates)
    requires ReadsAsCoordinates(j, c)
    ensures CoordinatesFieldResult(Some(j)) == CoordinatesVerdict(c)
  {
    CoordinatesListFieldReads(j, c);
  }

  /** Conversely every such object is accepted, whatever other keys it has. */
  lemma SingleRingPolygonIsValid(fields: map<string, Json>, c: Coordinates)
    requires "type" in fields && fields["type"].JStr? && Strip(fields["type"].s) == PolygonType
    requires "coordinates" in fields && ReadsAsCoordinates(fields["coordinates"], c)
    requires IsSingleRingPolygon(c)
    ensures ValidateGeometry(JObject(fields)) == Valid(GeometryData(PolygonType, c))
  {
    TypeFieldAcceptsPolygonOnly(Lookup(fields, "type"));
    CoordinatesFieldOfReading(fields["coordinates"], c);
    CoordinatesAcceptedIffSingleRing(c);
    assert CoordinatesFieldResult(Lookup(fields, "coordinates")) == Ok(c);
    ValidateObjectFields(fields);
  }

  /** Each field's message depends on that field's value alone: `type` and
      `coordinates` are reported under their own keys, independently. */
  lemma FieldsValidatedIndependently(fields: map<string, Json>)
    requires ValidateGeometry(JObject(fields)).Invalid?
    ensures ValidateGeometry(JObject(fields)).errors.FieldErrors?
    ensures var e := ValidateGeometry(JObject(fields)).errors.byField;
            && e.Keys <= {"type", "coordinates"}
            && ("type" in e <==> TypeFieldResult(Lookup(fields, "type")).Err?)
            && ("type" in e ==> e["type"] == TypeFieldResult(Lookup(fields, "type")).error)
            && ("coordinates" in e <==> CoordinatesFieldResult(Lookup(fields, "coordinates")).Err?)
            && ("coordinates" in e ==> e["coordinates"] == CoordinatesFieldResult(Lookup(fields, "coordinates")).error)
  {
  }

  /** A value that is not a list, at any of the three levels, is refused by
      the list fields, so none of the checks of validate_coordinates runs. */
  lemma StructuralErrorsComeFirst(fields: map<string, Json>)
    requires "coordinates" in fields && CoordinatesListField(fields["coordinates"]).Err?
    ensures ValidateGeometry(JObject(fields)).Invalid?
    ensures ValidateGeometry(JObject(fields)).errors.byField["coordinates"]
            == CoordinatesListField(fields["coordinates"]).error
  {
  }

  /** `coordinates` that is neither a list nor null is refused with the
      list field's message naming its type. */
  lemma CoordinatesNotAList(j: Json)
    requires !j.JList? && !j.JNull?
    ensures CoordinatesFieldResult(Some(j)) == Err(NotAListMsg(PythonTypeName(j)))
  {
  }

  /** The first ring item that is neither a list nor null decides the
      message, once every ring before it was read. */
  lemma RingItemNotAList(j: Json, k: nat)
    requires j.JList? && k < |j.items|
    requires forall i :: 0 <= i < k ==> RingField(j.items[i]).Ok?
    requires !j.items[k].JList? && !j.items[k].JNull?
    ensures CoordinatesFieldResult(Some(j)) == Err(NotAListMsg(PythonTypeName(j.items[k])))
  {
    ParseEachFirstError(j.items, RingField, k);
  }

  /** Likewise the first position item, inside the first ring that fails,
      that is neither a list nor null. */
  lemma PositionItemNotAList(j: Json, k: nat, m: nat)
    requires j.JList? && k < |j.items|
    requires forall i :: 0 <= i < k ==> RingField(j.items[i]).Ok?
    requires j.items[k].JList? && m < |j.items[k].items|
    requires forall i :: 0 <= i < m ==> PositionField(j.items[k].items[i]).Ok?
    requires !j.items[k].items[m].JList? && !j.items[k].items[m].JNull?
    ensures CoordinatesFieldResult(Some(j)) == Err(NotAListMsg(PythonTypeName(j.items[k].items[m])))
  {
    ParseEachFirstError(j.items[k].items, PositionField, m);
    ParseEachFirstError(j.items, RingField, k);
  }

  // ---------------------------------------------------------------------
  // ProviderPolygonSerializerToWrite.create

  /** A value of the dictionaries `create` handles: validated fields, the
      geometry built from them, or the owning account taken from the context. */
  datatype Value =
    | Plain(j: Json)
    | Geometry(data: GeometryData)
    | Geom(geom: GeosGeometry)
    | User(accountId: int)

  /** The `validated_data` dictionary, which `create` changes in place. */
  class ValidatedData {
    var entries: map<string, Value>

    constructor (entries: map<string, Value>)
      ensures this.entries == entries
    {
      this.entries := entries;
    }

    /** dict.pop(key) without a default: the key must be present. */
    method Pop(key: string) returns (v: Value)
      requires key in entries
      modifies this
      ensures v == old(entries)[key]
      ensures entries == old(entries) - {key}
    {
      v := entries[key];
      entries := entries - {key};
    }
  }

  /** The keyword arguments the polygon is built from: the validated fields
      without `geometry`, plus the converted `geom` and the context's user,
      which win over any key of the same name. */
  function PolygonKwargs(validated: map<string, Value>, user: Value): (kwargs: map<string, Value>)
    requires "geometry" in validated && validated["geometry"].Geometry?
    ensures kwargs.Keys == validated.Keys - {"geometry"} + {"geom", "user"}
    ensures kwargs["user"] == user
    ensures kwargs["geom"] == Geom(GetPolygonObj(validated["geometry"].data))
    ensures kwargs["geom"].geom.srid == Wgs84Srid
    ensures forall k :: k in validated && k !in {"geometry", "geom", "user"} ==> kwargs[k] == validated[k]
  {
    var rest := validated - {"geometry"};
    rest["geom" := Geom(GetPolygonObj(validated["geometry"].data))]["user" := user]
  }

  /** The owner never comes from the input: two inputs that differ only in a
      `user` entry give the same polygon. */
  lemma OwnerComesFromContext(validated: map<string, Value>, forged: Value, user: Value)
    requires "geometry" in validated && validated["geometry"].Geometry?
    ensures PolygonKwargs(validated["user" := forged], user) == PolygonKwargs(validated - {"user"}, user)
  {
    var a := PolygonKwargs(validated["user" := forged], user);
    var b := PolygonKwargs(validated - {"user"}, user);
    assert a.Keys == b.Keys;
    forall k | k in a ensures a[k] == b[k] {
    }
  }

  /** create: pops `geometry` out of the validated data, converts it, and
      builds the polygon with the user from the serializer context. Saving
      it is left to the database. */
  method Create(validatedData: ValidatedData, context: map<string, Value>)
    returns (kwargs: map<string, Value>)
    requires "geometry" in validatedData.entries && validatedData.entries["geometry"].Geometry?
    requires "user" in context
    modifies validatedData
    ensures validatedData.entries == old(validatedData.entries) - {"geometry"}
    ensures kwargs == PolygonKwargs(old(validatedData.entries), context["user"])
  {
    var geometry := validatedData.Pop("geometry");
    var polygonObj := GetPolygonObj(geometry.data);
    kwargs := validatedData.entries["geom" := Geom(polygonObj)]["user" := context["user"]];
  }

  // ---------------------------------------------------------------------
  // Read serializers

  const PolygonFields: seq<string> := ["id", "name", "price", "geometry", "created_at", "updated_at"]
  const PolygonWithNameFields: seq<string> := PolygonFields + ["provider_name"]

  /** A stored polygon as the read serializers see it. The plain model
      fields arrive already rendered by their framework fields; `geomCoords`
      stands for `geom.coords` and `ownerName` for `user.name`. */
  datatype PolygonRow = PolygonRow(
    id: Json, name: Json, price: Json, createdAt: Json, updatedAt: Json,
    geomCoords: Json, ownerName: string)

  /** get_geometry: the stored coordinates, unchanged, as a GeoJSON Polygon. */
  function GetGeometry(row: PolygonRow): (r: map<string, Json>)
    ensures r.Keys == {"type", "coordinates"}
    ensures r["type"] == JStr(PolygonType) && r["coordinates"] == row.geomCoords
  {
    BuildGeometryJsonResponse(row.geomCoords)
  }

  /** get_provider_name */
  function GetProviderName(row: PolygonRow): string {
    row.ownerName
  }

  function Keys(pairs: seq<(string, Json)>): seq<string> {
    seq(|pairs|, k requires 0 <= k < |pairs| => pairs[k].0)
  }

  /** ProviderPolygonSerializer's output: the declared fields in their
      declared order, the geometry shaped as a GeoJSON Polygon. */
  function PolygonRepresentation(row: PolygonRow): (r: seq<(string, Json)>)
    ensures Keys(r) == PolygonFields
    ensures r[3].1 == JObject(BuildGeometryJsonResponse(row.geomCoords))
    ensures r[0].1 == row.id && r[1].1 == row.name && r[2].1 == row.price
    ensures r[4].1 == row.createdAt && r[5].1 == row.updatedAt
  {
    [("id", row.id), ("name", row.name), ("price", row.price),
     ("geometry", JObject(GetGeometry(row))),
     ("created_at", row.createdAt), ("updated_at", row.updatedAt)]
  }

  /** ProviderPolygonWithNameSerializer's output: the same, followed by the
      owner's name. */
  function PolygonWithNameRepresentation(row: PolygonRow): (r: seq<(string, Json)>)
    ensures Keys(r) == PolygonWithNameFields
    ensures r[..|PolygonFields|] == PolygonRepresentation(row)
    ensures r[|PolygonFields|].1 == JStr(row.ownerName)
  {
    PolygonRepresentation(row) + [("provider_name", JStr(GetProviderName(row)))]
  }

  /** ProviderPolygonSerializerToWrite's output: `geometry` is write-only, so
      the response carries the other declared fields only. */
  function WrittenPolygonRepresentation(row: PolygonRow): (r: seq<(string, Json)>)
    ensures Keys(r) == PolygonFields[..3] + PolygonFields[4..]
    ensures forall k :: 0 <= k < |r| ==> r[k].0 != "geometry"
    ensures r[0].1 == row.id && r[1].1 == row.name && r[2].1 == row.price
    ensures r[3].1 == row.createdAt && r[4].1 == row.updatedAt
  {
    var full := PolygonRepresentation(row);
    full[..3] + full[4..]
  }

  /** A response built from integer coordinates `c` is accepted again by
      GeometrySerializer exactly when `c` forms a single closed ring; then
      it validates to `c` itself. */
  lemma ResponseGeometryRevalidates(c: Coordinates)
    ensures ValidateGeometry(JObject(BuildGeometryJsonResponse(EncodeCoordinates(c)))).Valid?
            <==> IsSingleRingPolygon(c)
    ensures IsSingleRingPolygon(c) ==>
              ValidateGeometry(JObject(BuildGeometryJsonResponse(EncodeCoordinates(c))))
              == Valid(GeometryData(PolygonType, c))
  {
    ResponseGeometryFields(c);
    PolygonObjectRevalidates(BuildGeometryJsonResponse(EncodeCoordinates(c)), c);
  }

  /** In a response built from integer coordinates `c`, `type` trims to
      "Polygon" and `coordinates` read back as `c`. */
  lemma ResponseGeometryFields(c: Coordinates)
    ensures var fields := BuildGeometryJsonResponse(EncodeCoordinates(c));
            "type" in fields && fields["type"].JStr? && Strip(fields["type"].s) == PolygonType
            && "coordinates" in fields && CoordinatesListField(fields["coordinates"]) == Ok(c)
  {
    PolygonTypeUnpadded();
    CoordinatesListFieldRoundTrip(c);
  }

  /** An object whose `type` trims to "Polygon" and whose `coordinates` read
      as `c` is accepted exactly when `c` is a single closed ring. */
  lemma PolygonObjectRevalidates(fields: map<string, Json>, c: Coordinates)
    requires "type" in fields && fields["type"].JStr? && Strip(fields["type"].s) == PolygonType
    requires "coordinates" in fields && CoordinatesListField(fields["coordinates"]) == Ok(c)
    ensures ValidateGeometry(JObject(fields)).Valid? <==> IsSingleRingPolygon(c)
    ensures IsSingleRingPolygon(c) ==> ValidateGeometry(JObject(fields)) == Valid(GeometryData(PolygonType, c))
  {
    var j := fields["coordinates"];
    CoordinatesListFieldReads(j, c);
    if IsSingleRingPolygon(c) {
      SingleRingPolygonIsValid(fields, c);
    } else if ValidateGeometry(JObject(fields)).Valid? {
      ValidGeometryIsSingleRingPolygon(JObject(fields));
      CoordinatesListFieldReads(j, ValidateGeometry(JObject(fields)).geometry.coordinates);
      assert false;
    }
  }
}
