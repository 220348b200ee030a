/** The cases of polygons/tests/test_serializers.py, stated about the model. */
module PolygonExamples {
  import opened Wrappers
  import opened Json
  import opened PyText
  import opened RestFields
  import opened PolygonUtils
  import opened PolygonSerializers

  function Geo(kind: string, coordinates: Json): Json {
    JObject(map["type" := JStr(kind), "coordinates" := coordinates])
  }

  function OnlyError(key: string, message: string): Validation {
    Invalid(FieldErrors(map[key := message]))
  }

  // The test strings are named constants, and facts about them are stated in
  // small lemmas of their own, so that no proof unfolds `Strip` or `int()`
  // on a literal.
  const PointText := "Point"

  /** The validator on a two-key object is the combination of its two
      fields' outcomes. */
  lemma GeoFields(kind: string, coordinates: Json)
    ensures ValidateGeometry(Geo(kind, coordinates))
            == Collect(TypeFieldResult(Some(JStr(kind))), CoordinatesFieldResult(Some(coordinates)))
  {
    var fields := map["type" := JStr(kind), "coordinates" := coordinates];
    assert Lookup(fields, "type") == Some(JStr(kind));
    assert Lookup(fields, "coordinates") == Some(coordinates);
  }

  /** When at most one field fails, the errors hold that field's message only. */
  lemma CollectCases(t: Result<string>, c: Result<Coordinates>)
    ensures t.Ok? && c.Ok? ==> Collect(t, c) == Valid(GeometryData(t.value, c.value))
    ensures t.Ok? && c.Err? ==> Collect(t, c) == OnlyError("coordinates", c.error)
    ensures t.Err? && c.Ok? ==> Collect(t, c) == OnlyError("type", t.error)
  {
    if t.Ok? && c.Err? {
      assert FieldError("type", t) + FieldError("coordinates", c) == map["coordinates" := c.error];
    } else if t.Err? && c.Ok? {
      assert FieldError("type", t) + FieldError("coordinates", c) == map["type" := t.error];
    }
  }

  lemma TypeAccepted(kind: string)
    requires kind == PolygonType
    ensures TypeFieldResult(Some(JStr(kind))) == Ok(PolygonType)
  {
    PolygonTypeUnpadded();
    TypeFieldOfText(kind);
  }

  lemma PolygonTypeAccepted()
    ensures TypeFieldResult(Some(JStr(PolygonType))) == Ok(PolygonType)
  {
    TypeAccepted(PolygonType);
  }

  /** The coordinates example is judged on its own, with a valid `type`. */
  lemma WithPolygonType(coordinates: Json, c: Result<Coordinates>)
    requires CoordinatesFieldResult(Some(coordinates)) == c
    ensures c.Ok? ==> ValidateGeometry(Geo(PolygonType, coordinates)) == Valid(GeometryData(PolygonType, c.value))
    ensures c.Err? ==> ValidateGeometry(Geo(PolygonType, coordinates)) == OnlyError("coordinates", c.error)
  {
    PolygonTypeAccepted();
    GeoFields(PolygonType, coordinates);
    CollectCases(Ok(PolygonType), c);
  }

  const Square: Coordinates := [[[0, 0], [0, 50], [50, 50], [50, 0], [0, 0]]]

  /** The square of the tests is a closed ring of five pairs. */
  lemma SquareCoordinatesAccepted()
    ensures CoordinatesFieldResult(Some(EncodeCoordinates(Square))) == Ok(Square)
  {
    CoordinatesListFieldRoundTrip(Square);
    assert IsSingleRingPolygon(Square);
    CoordinatesAcceptedIffSingleRing(Square);
  }

  lemma SquareIsValid()
    ensures ValidateGeometry(Geo(PolygonType, EncodeCoordinates(Square)))
            == Valid(GeometryData(PolygonType, Square))
  {
    SquareCoordinatesAccepted();
    WithPolygonType(EncodeCoordinates(Square), Ok(Square));
  }

  /** Stated once so that proofs about "Point" need not unfold `Strip`. */
  lemma PointTextUnpadded()
    ensures Strip(PointText) == PointText
  {
    StripUnpadded(PointText);
  }

  /** Any other non-blank kind is refused under `type`, with valid coordinates. */
  lemma KindRefused(kind: string)
    requires Strip(kind) != "" && Strip(kind) != PolygonType
    ensures ValidateGeometry(Geo(kind, EncodeCoordinates(Square))) == OnlyError("type", TypeMsg)
  {
    TypeFieldOfText(kind);
    SquareCoordinatesAccepted();
    GeoFields(kind, EncodeCoordinates(Square));
    CollectCases(Err(TypeMsg), Ok(Square));
  }

  lemma TypeNotPolygonIsRefused()
    ensures ValidateGeometry(Geo(PointText, EncodeCoordinates(Square))) == OnlyError("type", TypeMsg)
  {
    PointTextUnpadded();
    assert PointText != PolygonType by { assert |PointText| != |PolygonType|; }
    KindRefused(PointText);
  }

  const EmptyObject := JObject(map[])

  lemma CoordinatesMustBeAList()
    ensures ValidateGeometry(Geo(PolygonType, EmptyObject)) == OnlyError("coordinates", NotAListMsg("dict"))
  {
    assert CoordinatesFieldResult(Some(EmptyObject)) == Err(NotAListMsg("dict"));
    WithPolygonType(EmptyObject, Err(NotAListMsg("dict")));
  }

  const ListOfObject := JList([EmptyObject])

  lemma CoordinatesChildMustBeAList()
    ensures ValidateGeometry(Geo(PolygonType, ListOfObject)) == OnlyError("coordinates", NotAListMsg("dict"))
  {
    RingItemNotAList(ListOfObject, 0);
    WithPolygonType(ListOfObject, Err(NotAListMsg("dict")));
  }

  const TwoRings: Coordinates := [[], []]

  lemma CoordinatesMustHoldOneRing()
    ensures ValidateGeometry(Geo(PolygonType, EncodeCoordinates(TwoRings))) == OnlyError("coordinates", StructureMsg)
  {
    CoordinatesListFieldRoundTrip(TwoRings);
    WithPolygonType(EncodeCoordinates(TwoRings), Err(StructureMsg));
  }

  const IntInRing := JList([JList([JInt(2), EmptyObject])])

  lemma CoordinatesGrandchildMustBeAList()
    ensures ValidateGeometry(Geo(PolygonType, IntInRing)) == OnlyError("coordinates", NotAListMsg("int"))
  {
    PositionItemNotAList(IntInRing, 0, 0);
    WithPolygonType(IntInRing, Err(NotAListMsg("int")));
  }

  const ThreeEmptyPositions: Coordinates := [[[], [], []]]

  lemma RingNeedsFourPositions()
    ensures ValidateGeometry(Geo(PolygonType, EncodeCoordinates(ThreeEmptyPositions)))
            == OnlyError("coordinates", VertexCountMsg)
  {
    CoordinatesListFieldRoundTrip(ThreeEmptyPositions);
    WithPolygonType(EncodeCoordinates(ThreeEmptyPositions), Err(VertexCountMsg));
  }

  const UnevenPositions: Coordinates := [[[], [0, 50, 0], [50], [0]]]

  lemma PositionsNeedTwoValues()
    ensures ValidateGeometry(Geo(PolygonType, EncodeCoordinates(UnevenPositions)))
            == OnlyError("coordinates", ArityMsg)
  {
    var c := UnevenPositions;
    CoordinatesListFieldRoundTrip(c);
    assert !AllPairs(c[0]) by { assert |c[0][0]| != 2; }
    WithPolygonType(EncodeCoordinates(c), Err(ArityMsg));
  }

  const OpenSquare: Coordinates := [[[0, 0], [0, 50], [50, 50], [50, 0]]]

  lemma RingMustBeClosed()
    ensures ValidateGeometry(Geo(PolygonType, EncodeCoordinates(OpenSquare)))
            == OnlyError("coordinates", ClosureMsg)
  {
    var c := OpenSquare;
    CoordinatesListFieldRoundTrip(c);
    assert CoordinatesVerdict(c) == Err(ClosureMsg) by {
      assert AllPairs(c[0]);
      assert c[0][0][0] != c[0][3][0];
    }
    WithPolygonType(EncodeCoordinates(c), Err(ClosureMsg));
  }

  // Integer text of the kind a client may send; named for the same reason
  // as PointText.
  const Fifty := "50"
  const MinusSeven := "-7"
  const Fraction := "5.5"

  /** Stated on its own to keep the literal out of IntegerTextIsRead. */
  lemma FiftyIsIntString()
    ensures IntString(50) == Fifty
  {
  }

  /** The integer field reads integer text too. */
  lemma IntegerTextIsRead()
    ensures IntegerField(JStr(Fifty)) == Ok(50)
  {
    FiftyIsIntString();
    IntegerTextOfIntString(50);
  }

  const ZerosTail := ".00"

  /** Stated on its own to keep the literal out of DecimalTailIsDropped. */
  lemma ZerosTailIsDecimalTail()
    ensures IsDecimalTail(ZerosTail)
  {
    assert ZerosTail[1..] == "00" && "00"[1..] == "0" && "0"[1..] == "";
  }

  lemma MinusSevenIsRead()
    ensures IntOfText(MinusSeven) == Some(-7)
  {
    assert MinusSeven[1..] == NatString(7);
    IntOfMinusNatString(MinusSeven, 7);
  }

  /** A trailing ".00" is dropped before the text is read. */
  lemma DecimalTailIsDropped()
    ensures IntegerField(JStr(MinusSeven + ZerosTail)) == Ok(-7)
  {
    ZerosTailIsDecimalTail();
    DropDecimalTailAfter(MinusSeven, ZerosTail);
    MinusSevenIsRead();
  }

  /** "5.5" has no decimal tail to drop. */
  lemma FractionKeepsItsText()
    ensures DropDecimalTail(Fraction) == Fraction
  {
    assert !IsDecimalTail(Fraction);
    assert Fraction[1..] == ".5" && ".5"[1..] == "5";
    assert !IsDecimalTail(".5") by { assert !ZerosThenSpaces("5"); }
    DropDecimalTailNoDot("5");
    assert DropDecimalTail(".5") == ".5";
  }

  /** `int("5.5")` raises. */
  lemma FractionIsNotAnInt()
    ensures IntOfText(Fraction) == None
  {
    assert !IsDigit(Fraction[1]);
    IntOfTextNeedsDigits(Fraction);
  }

  /** A fraction and a boolean are refused. */
  lemma FractionIsRefused()
    ensures IntegerField(JStr(Fraction)) == Err(InvalidIntegerMsg)
    ensures IntegerField(JBool(true)) == Err(InvalidIntegerMsg)
  {
    FractionKeepsItsText();
    FractionIsNotAnInt();
  }
}
