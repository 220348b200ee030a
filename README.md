# geodjango-example: polygon validation and ownership permissions

This Dafny project models three parts of the geodjango-example service.

- **`GeometrySerializer`** in `polygons/serializers.py` checks the `geometry` of a provider polygon before it is stored. It accepts a GeoJSON Polygon with a single ring:
  - `type` must be `"Polygon"`;
  - `coordinates` must be a list holding one list of at least four positions;
  - each position must be a pair of integers;
  - the last position must equal the first.
- **The same file's other serializers:**
  - the write serializer's `create` turns the validated geometry into a GEOS geometry under SRID 4326 and takes the owner from the request context;
  - the read serializers send the stored coordinates back as a GeoJSON Polygon, optionally followed by the provider's name.
- **`polygons/utils.py`** holds the two helpers those serializers use.
- **`moziotest/permissions.py`** holds two ownership rules. Safe methods (GET, HEAD, OPTIONS) are always allowed. Any other method is allowed only to an authenticated account whose id matches:
  - the `pk` of the URL, for the account rule;
  - the object's stored owner, for the object rule.

Modules:

| file | module | contents |
|---|---|---|
| `wrappers.dfy` | `Wrappers` | `Option` and `Result` |
| `json.dfy` | `Json` | parsed request data, and Python 3's type names for it |
| `py_text.dfy` | `PyText` | Python 3's `str.strip()` (with the whitespace of `str.isspace()`), `str(i)` and `int(s)` on text |
| `rest_fields.dfy` | `RestFields` | the REST framework fields the serializer declares: `CharField`, `IntegerField`, `ListField` |
| `polygons_utils.dfy` | `PolygonUtils` | `get_polygon_obj` and `build_geometry_json_response` |
| `polygons_serializers.dfy` | `PolygonSerializers` | `validate_type`, `validate_coordinates`, the whole `is_valid()` outcome, `create`, and the read representations |
| `permissions.dfy` | `Permissions` | both permission classes |
| `polygons_examples.dfy` | `PolygonExamples` | the cases of `polygons/tests/test_serializers.py` |

A few choices shape the model:

- **Imperative code stays imperative.**
  - `validate_coordinates` loops over the ring, so `ValidateCoordinates` is a method with a loop. It is proved equal to the function `CoordinatesVerdict`, and the properties are proved about that function.
  - `create` pops a key from the dictionary it is given, so `validated_data` is a class, `ValidatedData`, whose `Pop` changes its `entries`.
- **Validation stops at the first failure.** The field checks and `validate_coordinates` run in order, and the first one that fails supplies the field's only message. Each field is still judged on its own, so `type` and `coordinates` can both fail in the same call.
- **Messages are the code's own strings.** Where the code writes "should follows" and "should has", so does the model.

## Model

| member | source | states |
|---|---|---|
| PolygonSerializers.ValidateType | polygons/serializers.py:19-25 | accepts exactly the value "Polygon" and returns it unchanged; every other value gets the "should be \"Polygon\"" message |
| PolygonSerializers.ListsMatch | polygons/serializers.py:43 | `lists_matches` holds exactly when the two positions are equal |
| PolygonSerializers.CoordinatesVerdict | polygons/serializers.py:27-47 | what `validate_coordinates` returns: a value it accepts is returned unchanged and is a single closed ring; a refusal carries one of its four messages (both directions in `CoordinatesAcceptedIffSingleRing` and `CoordinatesCheckOrder`) |
| PolygonSerializers.ValidateCoordinates | polygons/serializers.py:27-47 | the method, including its loop over the ring, returns exactly `CoordinatesVerdict`: the first failing check's message, or the value unchanged |
| PolygonSerializers.CoordinatesAcceptedIffSingleRing | polygons/serializers.py:27-47 | coordinates are accepted, and returned unchanged, if and only if they are one ring of at least four pairs whose last pair equals the first |
| PolygonSerializers.CoordinatesCheckOrder | polygons/serializers.py:29-46 | each of the four messages is raised if and only if all earlier checks pass and its own fails; no other message is raised |
| PolygonSerializers.MessagesDistinct | polygons/serializers.py:30-45 | the four messages differ pairwise, so the message identifies the check that failed |
| PolygonSerializers.PositionFieldReads | polygons/serializers.py:13-15 | the innermost `ListField(child=IntegerField())` gives `p` if and only if the value is a list as long as `p`, each item read by the integer field as the matching value |
| PolygonSerializers.RingFieldReads | polygons/serializers.py:12-16 | the middle list field gives a ring if and only if every item reads as the matching position |
| PolygonSerializers.CoordinatesListFieldReads | polygons/serializers.py:11-17 | the three nested list fields give `c` if and only if the value has the nested shape of `c` with each leaf read as its integer |
| PolygonSerializers.CoordinatesListFieldRoundTrip | polygons/serializers.py:11-17 | JSON lists of lists of lists of integers are read back unchanged |
| PolygonSerializers.TypeFieldResult | polygons/serializers.py:10-25 | a missing `type` gets "This field is required."; a passing `type` is "Polygon" (the converse in `TypeFieldAcceptsPolygonOnly`) |
| PolygonSerializers.CoordinatesFieldResult | polygons/serializers.py:11-47 | a missing `coordinates` gets "This field is required."; passing coordinates are what the nested list fields read, and form a single closed ring |
| PolygonSerializers.ValidateGeometry | polygons/serializers.py:9-47 | `is_valid()` on the geometry: null gets the null message without a field key; any other non-object gets "Invalid data. Expected a dictionary, but got …" under `non_field_errors`; accepted data is an object and its validated `type` is "Polygon" (the rest in `ValidGeometryIsSingleRingPolygon`, `SingleRingPolygonIsValid`, `FieldsValidatedIndependently`) |
| PolygonSerializers.RingFieldRoundTrip | polygons/serializers.py:12-16 | a JSON list of lists of integers is read back by the middle list field as the same ring |
| PolygonSerializers.PositionFieldRoundTrip | polygons/serializers.py:13-15 | a JSON list of integers is read back by the innermost list field as the same position |
| PolygonSerializers.TypeFieldAcceptsPolygonOnly | polygons/serializers.py:10-25 | the `type` field passes if and only if it is a string that is "Polygon" after trimming, and the result is then "Polygon"; an integer never passes |
| PolygonSerializers.TypeFieldOfText | polygons/serializers.py:10-25 | on non-blank text the `type` field gives "Polygon" when the trimmed text is "Polygon", and the `validate_type` message otherwise |
| PolygonSerializers.ValidGeometryIsSingleRingPolygon | polygons/serializers.py:9-47 | accepted data is an object whose `type` is "Polygon" and whose `coordinates` read as a single closed ring of at least four pairs; the validated data holds exactly those coordinates |
| PolygonSerializers.CoordinatesFieldOfReading | polygons/serializers.py:11-47 | `coordinates` that read as `c` are judged by the checks of `validate_coordinates` on `c` |
| PolygonSerializers.SingleRingPolygonIsValid | polygons/serializers.py:9-47 | conversely, every object with `type` "Polygon" and coordinates reading as a single closed ring is accepted with exactly those values, whatever other keys it has |
| PolygonSerializers.FieldsValidatedIndependently | polygons/serializers.py:9-47 | a refused object's errors have only the keys `type` and `coordinates`; each key is present exactly when that field's own check fails, and holds that field's message |
| PolygonSerializers.StructuralErrorsComeFirst | polygons/serializers.py:11-29 | when the nested list fields refuse `coordinates`, their message is reported and `validate_coordinates` does not run |
| PolygonSerializers.CoordinatesNotAList | polygons/serializers.py:11-17 | a `coordinates` value that is neither a list nor null gets "Expected a list of items but got type" with its Python type name |
| PolygonSerializers.RingItemNotAList | polygons/serializers.py:11-17 | the first ring item that is neither a list nor null, with every earlier ring read, gives the not-a-list message with its type name |
| PolygonSerializers.PositionItemNotAList | polygons/serializers.py:11-17 | the same for the first such position item inside the first ring that fails |
| PolygonSerializers.ValidatedData.constructor | polygons/serializers.py:59 | the dictionary holds the given entries |
| PolygonSerializers.ValidatedData.Pop | polygons/serializers.py:60 | `pop` returns the value of the key and removes that key only |
| PolygonSerializers.PolygonKwargs | polygons/serializers.py:60-65 | the polygon is built from the validated fields without `geometry`, plus `geom`, converted under SRID 4326, and `user` from the context; all other fields are kept as they were |
| PolygonSerializers.OwnerComesFromContext | polygons/serializers.py:61-65 | a `user` entry in the validated data cannot change the polygon built: the context's user always wins |
| PolygonSerializers.Create | polygons/serializers.py:59-67 | `geometry` is popped from `validated_data` and nothing else there changes; the polygon's arguments are `PolygonKwargs` of the old data |
| PolygonSerializers.GetGeometry | polygons/serializers.py:79-81 | the geometry sent back is an object with exactly the keys `type` ("Polygon") and `coordinates` (the stored coordinates, unchanged) |
| PolygonSerializers.PolygonRepresentation | polygons/serializers.py:70-81 | the read output holds the declared fields in declared order, with each stored value in place and the geometry in GeoJSON shape |
| PolygonSerializers.GetProviderName | polygons/serializers.py:90-92 | no contract of its own; `PolygonWithNameRepresentation` states that its value, the owner's name, is the last field of the output |
| PolygonSerializers.PolygonWithNameRepresentation | polygons/serializers.py:84-92 | the output with name is the plain read output followed by `provider_name`, the owner's name |
| PolygonSerializers.WrittenPolygonRepresentation | polygons/serializers.py:50-57 | the write serializer's response holds the declared fields except the write-only `geometry`, in order, each with its stored value |
| PolygonSerializers.ResponseGeometryRevalidates | polygons/serializers.py:79-81 | a response built from integer coordinates `c` passes `GeometrySerializer` again if and only if `c` forms a single closed ring, and then validates to `c` itself |
| PolygonSerializers.ResponseGeometryFields | polygons/serializers.py:79-81 | a response built from integer coordinates `c` has `type` "Polygon" (unchanged by trimming) and `coordinates` that the list fields read back as `c` |
| PolygonSerializers.PolygonObjectRevalidates | polygons/serializers.py:9-47 | an object whose `type` trims to "Polygon" and whose `coordinates` read as `c` is accepted if and only if `c` is a single closed ring, and then validates to `c` |
| PolygonUtils.GetPolygonObj | polygons/utils.py:4-7 | the geometry is built from the given data and always under SRID 4326 |
| PolygonUtils.BuildGeometryJsonResponse | polygons/utils.py:10-14 | the response has exactly the keys `type` ("Polygon") and `coordinates` (the given coordinates) |
| RestFields.CharField | polygons/serializers.py:10 | the character field passes if and only if the value is present, is a string or an integer, and is not blank after trimming; a string passes as its trimmed text and an integer as `str(i)`; a missing key gets "This field is required.", null "This field may not be null.", blank text "This field may not be blank.", and a boolean, list or mapping "Not a valid string." |
| RestFields.CharFieldReadsText | polygons/serializers.py:10 | non-blank text is read as its trimmed self |
| RestFields.IntegerText | polygons/serializers.py:14 | text of at most 1000 characters passes exactly when `int()` accepts it once a trailing ".0…" is dropped, and gives that integer; otherwise it gets "A valid integer is required."; longer text gets "String value too large." |
| RestFields.IntegerTextOfIntString | polygons/serializers.py:14 | the integer field reads back `str(i)` for every integer `i` that fits the length limit |
| RestFields.IntegerField | polygons/serializers.py:14 | an integer passes as itself; text is judged by `IntegerText`; booleans, lists and mappings get "A valid integer is required."; null gets "This field may not be null." |
| RestFields.DropDecimalTail | polygons/serializers.py:14 | removing the decimal tail leaves a prefix, and whatever it removes is a "." followed by zeros or whitespace; text that contains such a tail always loses something |
| RestFields.DropDecimalTailNoDot | polygons/serializers.py:14 | text without a dot is left as it is |
| RestFields.DropDecimalTailAfter | polygons/serializers.py:14 | a decimal tail after dot-free text is removed, and only that tail |
| RestFields.ParseEach | polygons/serializers.py:11-17 | the items are parsed in order: the result is a list of the same length holding each item's value, and it exists if and only if every item passes |
| RestFields.ParseEachFirstError | polygons/serializers.py:11-17 | when every item before item `k` passes and item `k` fails, the list is refused with item `k`'s message |
| RestFields.ParseEachErrorOfFirstRefused | polygons/serializers.py:11-17 | every refusal carries the message of an item the child refuses, with every earlier item passed |
| RestFields.ListField | polygons/serializers.py:11-17 | null gets "This field may not be null."; a value that is neither a list nor null is refused with "Expected a list of items but got type …" and its Python type name; a result has one value per item |
| RestFields.ListFieldOk | polygons/serializers.py:11-17 | a list field gives `xs` if and only if the value is a list whose items the child reads as the matching elements of `xs` |
| RestFields.ParseEachRoundTrip | polygons/serializers.py:11-17 | when the child field reads back each encoded element, the list field reads back the encoded list |
| PyText.Strip | polygons/serializers.py:10 | `strip()` leaves no whitespace at either end of the result; the result is empty exactly when the text is all whitespace |
| PyText.StripKeepsMiddle | polygons/serializers.py:10 | `strip()` returns a middle slice of the text, and everything it removes before and after that slice is whitespace |
| PyText.StripUnpadded | polygons/serializers.py:10 | text with no whitespace at either end is unchanged by `strip()` |
| PyText.DecimalValue | moziotest/permissions.py:15 | a value exists exactly for non-empty text of decimal digits |
| PyText.DecimalValueOfNatString | moziotest/permissions.py:15 | reading back the decimal text of a natural number gives the number |
| PyText.LeadingZerosIgnored | moziotest/permissions.py:15 | leading zeros do not change the value read |
| PyText.IntOfText | polygons/serializers.py:14 | no contract of its own; the lemmas below state what `int()` gives: unpadded digit text (`IntOfDigits`), digit text after `+` or `-` (`IntOfPlusDigits`, `IntOfNegatedDigits`), `str(i)` (`IntOfTextOfIntString`); surrounding whitespace is ignored (`IntOfStrippedText`); blank text and text whose trimmed form starts with neither a digit nor a sign are refused (`IntOfTextNeedsLeadingDigit`), and so is unpadded text that starts and ends with a digit but has other characters (`IntOfTextNeedsDigits`) |
| PyText.IntOfDigits | polygons/serializers.py:14 | `int()` reads unpadded ASCII digit text as its decimal value |
| PyText.IntOfPlusDigits | polygons/serializers.py:14 | a `+` before digit text keeps the value: "+5" reads as 5 |
| PyText.IntOfNegatedDigits | polygons/serializers.py:14 | a `-` before digit text negates the value |
| PyText.IntOfStrippedText | polygons/serializers.py:14 | `int()` gives the same result on the text and on its trimmed form |
| PyText.IntOfTextNeedsLeadingDigit | polygons/serializers.py:14 | blank text, and text whose trimmed form starts with neither a digit nor a sign, is refused |
| PyText.StripIdempotent | polygons/serializers.py:10 | stripping twice is stripping once |
| PyText.IntString | polygons/serializers.py:10 | `str(i)` is non-empty and made of digits and `-`; `int()` reads it back as `i` (`IntOfTextOfIntString`) |
| PyText.NatString | moziotest/permissions.py:15 | `str(n)` of a natural number is decimal digits without a leading zero |
| PyText.IntOfTextOfIntString | polygons/serializers.py:14 | `int(str(i)) == i` for every integer |
| PyText.IntOfTextNeedsDigits | polygons/serializers.py:14 | unpadded text starting and ending with a digit but not made only of digits is refused by `int()` |
| Permissions.PkValue | moziotest/permissions.py:15 | `int(pk)` keeps an integer; text gives a value only when, once trimmed, it is ASCII decimal digits with an optional sign, and `None` (where Python raises) otherwise |
| Permissions.PkValueOfDigits | moziotest/permissions.py:15 | `int(pk)` reads ASCII digit text as its decimal value, a natural number |
| Permissions.AccountHasPermission | moziotest/permissions.py:11-16 | the account rule allows only a safe method or the caller whose id is `int(pk)`; it can fail (where `int()` raises) only for an unsafe method, an authenticated caller and a `pk` that does not read as an integer |
| Permissions.AccountHasObjectPermission | moziotest/permissions.py:18-19 | no contract of its own; `AccountObjectCheckIgnoresObject` states that it is the view-level check, whatever the object |
| Permissions.ObjectHasObjectPermission | moziotest/permissions.py:28-33 | no contract of its own; `SafeMethodsAlwaysAllowed`, `UnauthenticatedUnsafeDenied` and `ObjectRuleAllowsOwnerOnly` state when it allows |
| Permissions.SafeMethodsAlwaysAllowed | moziotest/permissions.py:11-33 | GET, HEAD and OPTIONS are allowed by both rules, whoever asks |
| Permissions.UnauthenticatedUnsafeDenied | moziotest/permissions.py:11-33 | an unsafe method from a caller who is not authenticated is refused by both rules |
| Permissions.AccountRuleAllowsOwnerOnly | moziotest/permissions.py:11-16 | for an unsafe method, an authenticated caller and a numeric `pk`, the account rule allows exactly when `int(pk)` is the caller's id |
| Permissions.AccountRuleOnOwnPath | moziotest/permissions.py:11-16 | on the path text of an account id, the rule allows exactly that account |
| Permissions.AccountObjectCheckIgnoresObject | moziotest/permissions.py:18-19 | the account rule's object-level check equals its view-level check, whatever the object |
| Permissions.ObjectRuleAllowsOwnerOnly | moziotest/permissions.py:28-33 | for an unsafe method and an authenticated caller, the object rule allows exactly when the stored owner is the caller |
| Permissions.AllowedWriteImpliesOwner | moziotest/permissions.py:11-33 | any unsafe method either rule allows comes from an authenticated caller whose id is the one compared |
| Permissions.SafeDisjunctOnlyWidens | moziotest/permissions.py:12-30 | whatever a rule allows for an unsafe method, it also allows for a safe one |
| Permissions.AccountRuleTestCases | users/tests/test_views.py:110-195 | account 2 may not delete, patch or put account 1; account 1 may delete and patch itself; an anonymous GET is allowed |
| Permissions.AccountRuleRoutedCases | users/urls.py:9-12 | the same outcome when "1" comes from the URL as text |
| PolygonExamples.SquareIsValid | polygons/tests/test_serializers.py:92-103 | the closed square validates to itself |
| PolygonExamples.TypeNotPolygonIsRefused | polygons/tests/test_serializers.py:109-120 | "Point" is refused under `type` with the `validate_type` message, and only there |
| PolygonExamples.CoordinatesMustBeAList | polygons/tests/test_serializers.py:122-133 | `{}` is refused under `coordinates`: a list was expected, got "dict" |
| PolygonExamples.CoordinatesChildMustBeAList | polygons/tests/test_serializers.py:135-146 | `[{}]` is refused the same way |
| PolygonExamples.CoordinatesMustHoldOneRing | polygons/tests/test_serializers.py:148-159 | two rings get the structure message |
| PolygonExamples.CoordinatesGrandchildMustBeAList | polygons/tests/test_serializers.py:161-172 | `[[2, {}]]` is refused: a list was expected, got "int" |
| PolygonExamples.RingNeedsFourPositions | polygons/tests/test_serializers.py:174-185 | three positions get the vertex-count message |
| PolygonExamples.PositionsNeedTwoValues | polygons/tests/test_serializers.py:187-198 | positions that are not pairs get the two-values message |
| PolygonExamples.RingMustBeClosed | polygons/tests/test_serializers.py:200-211 | the open square gets the first-and-last message |
| PolygonExamples.IntegerTextIsRead | polygons/serializers.py:14 | the integer field reads "50" as 50 |
| PolygonExamples.DecimalTailIsDropped | polygons/serializers.py:14 | "-7.00" is read as -7 |
| PolygonExamples.FractionIsRefused | polygons/serializers.py:14 | "5.5" and `true` are refused by the integer field |

## Left out

- GEOS: `GEOSGeometry(str(data), srid=4326)` runs a foreign library on the text of the data. `GetPolygonObj` records only the data it was built from and the SRID it was given. So no round trip through `geom.coords` is claimed, and the read serializers take `geom.coords` as given JSON.
- Saving: `provider_polygon.save()` and the database are not modelled. `Create` returns the keyword arguments the polygon is built from.
- `lists_matches` is imported by `polygons/serializers.py` but not defined in `polygons/utils.py`. As written, the import would fail. `ListsMatch` models it as value-by-value equality of two positions, which is what its name and the tests imply.
- `len(value) is not 1` compares by identity. For the small integers involved this behaves like `!=`, and it is modelled as `!=`.
- The field errors are lists of messages in the framework. The model keeps one message per field, because each field stops at its first failure.
- The code stops at the first failing check and uses "should follows" and "should has"; the model follows the code.
- ResponseGeometryRevalidates: covers only responses built from integer coordinates. GEOS hands `geom.coords` back as floating-point numbers, which `Json` does not represent. On the real service a stored coordinate such as 10**16 is sent back as `1e+16`, which the integer field refuses, and coordinates above 2**53 change when stored as doubles. The same limit applies to ResponseGeometryFields.
- ResponseGeometryFields: reads back integer JSON only; see the line above.
- Floating-point JSON numbers are not part of `Json`. The integer field's acceptance of `5.0` is not modelled; only the text forms of integers are.
- Type names and whitespace follow Python 3: a JSON string is a "str", where Python 2 would name it "unicode".
- `IntOfText` reads ASCII digits only. Python's `int()` also accepts other Unicode decimal digits and underscores between digits.
- The framework's `CharField` options other than the defaults (`max_length`, `allow_blank`) are not used by the serializer and are not modelled.
- `null` as the whole input: the framework's answer to `data=None` depends on its version. The model gives the field's null message, without a field key.
- The `name` and `price` model fields, their validation, `created_at` and `updated_at` come from the model layer. The read representation takes them as already rendered values.
- Views, URL routing (beyond the `\d+` text that reaches `pk`), signals, tokens and passwords are not part of this model. Authentication is reduced to "an account, the anonymous user, or no user".
- Permissions.PkValue: reads ASCII digits only. The URL pattern `\d+` of users/urls.py is compiled with Unicode matching, so it also captures other decimal digits such as "١", which Python's `int()` reads (as 1). On such a path the model gives `None` where the source compares the number with the caller's id; `PkValueOfDigits` and `AccountRuleAllowsOwnerOnly` speak of ASCII digit text only.
