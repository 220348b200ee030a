/** The framework fields that GeometrySerializer declares for its input
    (polygons/serializers.py:9-17): a character field for `type` and three
    nested list fields ending in an integer field for `coordinates`. Each
    field turns a raw JSON value into a validated value or raises the first
    message that applies; the model follows the Django REST framework 3.x
    behaviour that the serializer tests rely on. */
module RestFields {
  import opened Wrappers
  import opened Json
  import opened PyText

  const RequiredMsg := "This field is required."
  const NullMsg := "This field may not be null."
  const BlankMsg := "This field may not be blank."
  const InvalidStringMsg := "Not a valid string."
  const InvalidIntegerMsg := "A valid integer is required."
  const MaxStringMsg := "String value too large."

  /** The longest text an integer field reads. */
  const MaxStringLength := 1000

  function NotAListMsg(typeName: string): string {
    "Expected a list of items but got type \"" + typeName + "\"."
  }

  // ---------------------------------------------------------------------
  // The three field kinds

  /** `CharField()` on the value found under its key (None: the key is
      absent): required, not null, not blank after trimming; strings are
      trimmed, integers are written in decimal, anything else is refused. */
  function CharField(v: Option<Json>): (r: Result<string>)
    ensures r.Ok? <==> v.Some? && (v.value.JStr? || v.value.JInt?)
                        && !(v.value.JStr? && Strip(v.value.s) == "")
    ensures r.Ok? && v.value.JStr? ==> r.value == Strip(v.value.s)
    ensures v.Some? && v.value.JInt? ==> r == Ok(IntString(v.value.i))
    ensures v.None? ==> r == Err(RequiredMsg)
    ensures v.Some? && v.value.JNull? ==> r == Err(NullMsg)
    ensures v.Some? && v.value.JStr? && Strip(v.value.s) == "" ==> r == Err(BlankMsg)
    ensures v.Some? && (v.value.JBool? || v.value.JList? || v.value.JObject?) ==> r == Err(InvalidStringMsg)
  {
    match v
    case None => Err(RequiredMsg)
    case Some(j) =>
      if j.JStr? && Strip(j.s) == "" then Err(BlankMsg)
      else match j
        case JNull => Err(NullMsg)
        case JStr(s) => Ok(Strip(s))
        case JInt(i) => Ok(IntString(i))
        case _ => Err(InvalidStringMsg)
  }

  /** Whether `t` is a dot, then zeros, then whitespace up to its end: the
      text the pattern `\.0*\s*$` matches. */
  predicate IsDecimalTail(t: string) {
    |t| > 0 && t[0] == '.' && ZerosThenSpaces(t[1..])
  }

  predicate ZerosThenSpaces(t: string) {
    |t| == 0 || (t[0] == '0' && ZerosThenSpaces(t[1..])) || forall k :: 0 <= k < |t| ==> IsSpace(t[k])
  }

  /** The integer field's `re_decimal.sub('', s)`: removes a trailing ".",
      "0"s and whitespace, so that "5.00" reads as 5; other text is kept.
      Exactly which suffix goes is stated by DropDecimalTailNoDot and
      DropDecimalTailAfter. */
  function DropDecimalTail(s: string): (r: string)
    ensures |r| <= |s| && r == s[..|r|]
    ensures |r| < |s| ==> IsDecimalTail(s[|r|..])
    ensures (exists i :: 0 <= i < |s| && IsDecimalTail(s[i..])) ==> |r| < |s|
  {
    if |s| == 0 || IsDecimalTail(s) then ""
    else
      var rest := DropDecimalTail(s[1..]);
      var r := [s[0]] + rest;
      assert r == s[..|r|] by { assert rest == s[1..][..|rest|]; }
      assert |r| < |s| ==> s[|r|..] == s[1..][|rest|..];
      assert (exists i :: 0 <= i < |s| && IsDecimalTail(s[i..])) ==> |r| < |s| by {
        if exists i :: 0 <= i < |s| && IsDecimalTail(s[i..]) {
          var i :| 0 <= i < |s| && IsDecimalTail(s[i..]);
          assert s[1..][i - 1..] == s[i..];
        }
      }
      r
  }

  /** Text without a dot has no decimal tail. */
  lemma {:induction false} DropDecimalTailNoDot(s: string)
    requires '.' !in s
    ensures DropDecimalTail(s) == s
  {
    if |s| > 0 {
      assert s[0] in s;
      assert forall c :: c in s[1..] ==> c in s;
      DropDecimalTailNoDot(s[1..]);
    }
  }

  /** A decimal tail after text without a dot is removed, and only it. */
  lemma {:induction false} DropDecimalTailAfter(p: string, t: string)
    requires '.' !in p && IsDecimalTail(t)
    ensures DropDecimalTail(p + t) == p
  {
    if |p| > 0 {
      assert p[0] in p;
      assert forall c :: c in p[1..] ==> c in p;
      assert (p + t)[1..] == p[1..] + t;
      DropDecimalTailAfter(p[1..], t);
    } else {
      assert p + t == t;
    }
  }

  /** The integer field on text: `int(re_decimal.sub('', s))` for text of at
      most 1000 characters. */
  function IntegerText(s: string): (r: Result<int>)
    ensures r.Ok? <==> |s| <= MaxStringLength && IntOfText(DropDecimalTail(s)).Some?
    ensures r.Ok? ==> r.value == IntOfText(DropDecimalTail(s)).value
    ensures |s| > MaxStringLength ==> r == Err(MaxStringMsg)
    ensures |s| <= MaxStringLength && IntOfText(DropDecimalTail(s)).None? ==> r == Err(InvalidIntegerMsg)
  {
    if |s| > MaxStringLength then Err(MaxStringMsg)
    else match IntOfText(DropDecimalTail(s))
      case None => Err(InvalidIntegerMsg)
      case Some(v) => Ok(v)
  }

  /** The integer field reads back what `str` writes for any integer that
      fits the length limit. */
  lemma IntegerTextOfIntString(i: int)
    requires |IntString(i)| <= MaxStringLength
    ensures IntegerText(IntString(i)) == Ok(i)
  {
    var s := IntString(i);
    assert forall k :: 0 <= k < |s| ==> s[k] != '.';
    DropDecimalTailNoDot(s);
    IntOfTextOfIntString(i);
  }

  /** Text that is not all whitespace is read as its trimmed self. */
  lemma CharFieldReadsText(s: string)
    requires Strip(s) != ""
    ensures CharField(Some(JStr(s))) == Ok(Strip(s))
  {
  }

  /** `IntegerField()` as a list child: `int(str(v))` once a trailing ".0"
      is removed, for integers and for text; booleans, lists and mappings
      are refused. An integer is its own value, as IntOfTextOfIntString
      shows of `int(str(i))`. */
  function IntegerField(j: Json): (r: Result<int>)
    ensures j.JInt? ==> r == Ok(j.i)
    ensures r.Ok? ==> j.JInt? || j.JStr?
    ensures j.JNull? ==> r == Err(NullMsg)
    ensures j.JStr? ==> r == IntegerText(j.s)
    ensures j.JBool? || j.JList? || j.JObject? ==> r == Err(InvalidIntegerMsg)
  {
    match j
    case JNull => Err(NullMsg)
    case JInt(i) => Ok(i)
    case JStr(s) => IntegerText(s)
    case _ => Err(InvalidIntegerMsg)
  }

  /** Runs `child` on every item, left to right, and stops at the first
      item it refuses, whose message it returns (ParseEachFirstError,
      ParseEachErrorOfFirstRefused). */
  function ParseEach<T>(items: seq<Json>, child: Json -> Result<T>): (r: Result<seq<T>>)
    ensures r.Ok? ==> |r.value| == |items|
    ensures r.Ok? <==> forall k :: 0 <= k < |items| ==> child(items[k]).Ok?
    ensures r.Ok? ==> forall k :: 0 <= k < |items| ==> r.value[k] == child(items[k]).value
  {
    if |items| == 0 then Ok([])
    else match child(items[0])
      case Err(e) => Err(e)
      case Ok(x) =>
        match ParseEach(items[1..], child)
        case Err(e) => Err(e)
        case Ok(xs) => Ok([x] + xs)
  }

  /** The error is the message of the first item the child refuses: once
      every item before `k` passes and item `k` fails, its message is the
      list's. */
  lemma {:induction false} ParseEachFirstError<T>(items: seq<Json>, child: Json -> Result<T>, k: nat)
    requires k < |items|
    requires forall j :: 0 <= j < k ==> child(items[j]).Ok?
    requires child(items[k]).Err?
    ensures ParseEach(items, child) == Err(child(items[k]).error)
  {
    if k > 0 {
      assert child(items[0]).Ok?;
      forall j | 0 <= j < k - 1
        ensures child(items[1..][j]).Ok?
      {
        assert items[1..][j] == items[j + 1];
      }
      ParseEachFirstError(items[1..], child, k - 1);
    }
  }

  /** Conversely, every error comes from an item that the child refuses and
      that every earlier item passed. */
  lemma {:induction false} ParseEachErrorOfFirstRefused<T>(items: seq<Json>, child: Json -> Result<T>)
    requires ParseEach(items, child).Err?
    ensures exists k :: 0 <= k < |items| && (forall j :: 0 <= j < k ==> child(items[j]).Ok?)
                        && child(items[k]) == Err(ParseEach(items, child).error)
  {
    if child(items[0]).Ok? {
      ParseEachErrorOfFirstRefused(items[1..], child);
      var k :| 0 <= k < |items[1..]| && (forall j :: 0 <= j < k ==> child(items[1..][j]).Ok?)
                && child(items[1..][k]) == Err(ParseEach(items[1..], child).error);
      assert child(items[k + 1]) == Err(ParseEach(items, child).error);
      forall j | 0 <= j < k + 1
        ensures child(items[j]).Ok?
      {
        if j > 0 {
          assert items[j] == items[1..][j - 1];
        }
      }
    }
  }

  /** `ListField(child=...)` on a value that is present: a list, every item
      accepted by the child field; a string, a mapping or any other
      non-list value is refused with the type the parser built. */
  function ListField<T>(j: Json, child: Json -> Result<T>): (r: Result<seq<T>>)
    ensures j.JNull? ==> r == Err(NullMsg)
    ensures !j.JList? && !j.JNull? ==> r == Err(NotAListMsg(PythonTypeName(j)))
    ensures r.Ok? ==> j.JList? && |r.value| == |j.items|
  {
    match j
    case JNull => Err(NullMsg)
    case JList(items) => ParseEach(items, child)
    case _ => Err(NotAListMsg(PythonTypeName(j)))
  }

  // ---------------------------------------------------------------------
  // Encoding typed values back to JSON, and the round trip through the fields

  function EncodeEach<T>(xs: seq<T>, enc: T -> Json): (r: seq<Json>)
    ensures |r| == |xs|
    ensures forall k :: 0 <= k < |xs| ==> r[k] == enc(xs[k])
  {
    if |xs| == 0 then [] else [enc(xs[0])] + EncodeEach(xs[1..], enc)
  }

  /** Parsing the encoding of a list gives back the list, whenever the child
      field gives back every encoded element. */
  lemma {:induction false} ParseEachRoundTrip<T>(xs: seq<T>, enc: T -> Json, child: Json -> Result<T>)
    requires forall x :: child(enc(x)) == Ok(x)
    ensures ParseEach(EncodeEach(xs, enc), child) == Ok(xs)
  {
    if |xs| > 0 {
      ParseEachRoundTrip(xs[1..], enc, child);
      var items := EncodeEach(xs, enc);
      assert items[1..] == EncodeEach(xs[1..], enc);
      assert child(items[0]) == Ok(xs[0]);
      assert [xs[0]] + xs[1..] == xs;
    }
  }

  /** A list field accepts a value and gives `xs` exactly when the value is
      a list as long as `xs` whose every item the child reads as the
      corresponding element of `xs`. */
  lemma ListFieldOk<T>(j: Json, child: Json -> Result<T>, xs: seq<T>)
    ensures ListField(j, child) == Ok(xs)
            <==> j.JList? && |j.items| == |xs| && forall k :: 0 <= k < |xs| ==> child(j.items[k]) == Ok(xs[k])
  {
    if j.JList? && |j.items| == |xs| && forall k :: 0 <= k < |xs| ==> child(j.items[k]) == Ok(xs[k]) {
      var r := ListField(j, child);
      assert r.Ok?;
      assert r.value == xs;
    }
  }
}
