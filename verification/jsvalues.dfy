/** The JavaScript values the server handles: parsed JSON plus `undefined`,
    with the few language rules the handlers depend on (property reads,
    template-literal conversion to text, truthiness). Numbers are integers. */
module JsValues {
  import opened Wrappers
  import Decimal

  /** A value produced by JSON.parse. `Obj` holds the members of the parsed
      text, duplicates included, and is read only through `Lookup`. */
  datatype Json =
    | Null
    | Bool(b: bool)
    | Num(n: int)
    | Str(s: string)
    | Arr(items: seq<Json>)
    | Obj(members: seq<(string, Json)>)

  /** A JavaScript value that may be `undefined` (an absent property or argument). */
  datatype JsValue = Undefined | Defined(value: Json)

  /** The member named `key`; when a key is repeated the last one wins, as in JSON.parse. */
  function Lookup(members: seq<(string, Json)>, key: string): (r: Option<Json>)
    ensures r.None? <==> forall i :: 0 <= i < |members| ==> members[i].0 != key
    ensures r.Some? ==>
      exists i :: 0 <= i < |members| && members[i] == (key, r.value)
        && forall j :: i < j < |members| ==> members[j].0 != key
    decreases |members|
  {
    if |members| == 0 then None
    else if members[|members| - 1].0 == key then Some(members[|members| - 1].1)
    else Lookup(members[..|members| - 1], key)
  }

  function OfOption(o: Option<Json>): JsValue {
    match o
    case Some(j) => Defined(j)
    case None => Undefined
  }

  /** The TypeError text a property read on `undefined` or `null` raises. */
  function ReadError(receiver: string, key: string): string {
    "Cannot read properties of " + receiver + " (reading '" + key + "')"
  }

  /** The property read `v.key`. Reading from `undefined` or `null` throws;
      an object yields its member; any other JSON value has none of the
      property names the server reads, so the result is `undefined`. */
  function Member(v: JsValue, key: string): (r: Result<JsValue, string>)
    ensures r.Failure? <==> v == Undefined || v == Defined(Null)
    ensures v == Undefined ==> r == Failure(ReadError("undefined", key))
    ensures v == Defined(Null) ==> r == Failure(ReadError("null", key))
    ensures r.Success? && r.value.Defined? ==> v.Defined? && v.value.Obj?
  {
    match v
    case Undefined => Failure(ReadError("undefined", key))
    case Defined(Null) => Failure(ReadError("null", key))
    case Defined(Obj(members)) => Success(OfOption(Lookup(members, key)))
    case Defined(_) => Success(Undefined)
  }

  /** JavaScript truthiness of a JSON value: `null`, `false`, `0` and `""` are falsy. */
  predicate Truthy(j: Json) {
    match j
    case Null => false
    case Bool(b) => b
    case Num(n) => n != 0
    case Str(s) => s != ""
    case Arr(_) => true
    case Obj(_) => true
  }

  function JoinWith(parts: seq<string>, separator: string): (s: string)
    ensures |parts| == 1 ==> s == parts[0]
    ensures |parts| == 0 ==> s == ""
    decreases |parts|
  {
    if |parts| == 0 then ""
    else if |parts| == 1 then parts[0]
    else JoinWith(parts[..|parts| - 1], separator) + separator + parts[|parts| - 1]
  }

  /** Joining splits at any point: the parts before and after are joined
      separately and put together with one separator between them. */
  lemma {:induction false} JoinWithSplits(a: seq<string>, b: seq<string>, separator: string)
    requires |a| > 0 && |b| > 0
    ensures JoinWith(a + b, separator) == JoinWith(a, separator) + separator + JoinWith(b, separator)
    decreases |b|
  {
    var n := |a + b|;
    assert (a + b)[n - 1] == b[|b| - 1];
    if |b| == 1 {
      assert (a + b)[..n - 1] == a;
    } else {
      var init := b[..|b| - 1];
      assert (a + b)[..n - 1] == a + init;
      JoinWithSplits(a, init, separator);
      var ja, ji, last := JoinWith(a, separator), JoinWith(init, separator), b[|b| - 1];
      assert JoinWith(a + b, separator) == (ja + separator + ji) + separator + last;
      assert JoinWith(b, separator) == ji + separator + last;
    }
  }

  /** The TypeError a conversion to text raises for an object that has no
      primitive value. */
  const ConversionError := "Cannot convert object to primitive value"

  /** The identity on conversion results, for collecting them with `MapOrThrow`. */
  function Itself(p: Result<string, string>): Result<string, string> {
    p
  }

  /** Whether String(j) throws. A parsed object's own `toString` member is
      never callable and the inherited `valueOf` returns the object itself,
      so an object with a `toString` key has no primitive value. An array
      converts through `join`, which converts each element in turn. */
  predicate NoPrimitive(j: Json)
    decreases j
  {
    match j
    case Obj(members) => Lookup(members, "toString").Some?
    case Arr(items) => exists i :: 0 <= i < |items| && NoPrimitive(items[i])
    case _ => false
  }

  /** String(j): what a template literal `${j}` inserts for a JSON value, or
      the TypeError it throws. Arrays are joined with "," and `null`
      elements become empty. */
  function ToText(j: Json): (r: Result<string, string>)
    ensures r.Failure? <==> NoPrimitive(j)
    ensures r.Failure? ==> r.error == ConversionError
    ensures j == Null ==> r == Success("null")
    ensures j.Bool? ==> r == Success(if j.b then "true" else "false")
    ensures j.Num? ==> r == Success(Decimal.IntToString(j.n))
    ensures j.Str? ==> r == Success(j.s)
    ensures j.Obj? && !NoPrimitive(j) ==> r == Success("[object Object]")
    decreases j
  {
    match j
    case Null => Success("null")
    case Bool(b) => Success(if b then "true" else "false")
    case Num(n) => Success(Decimal.IntToString(n))
    case Str(s) => Success(s)
    case Arr(items) =>
      var parts := seq(|items|, i requires 0 <= i < |items| =>
        if items[i] == Null then Success("") else ToText(items[i]));
      var texts :- MapOrThrow(Itself, parts);
      assert forall i :: 0 <= i < |items| ==> parts[i].Success?;
      assert forall i :: 0 <= i < |items| ==>
        parts[i] == (if items[i] == Null then Success("") else ToText(items[i]));
      assert forall i :: 0 <= i < |items| ==> ToText(items[i]).Success? ==> !NoPrimitive(items[i]);
      Success(JoinWith(texts, ","))
    case Obj(members) =>
      if Lookup(members, "toString").Some? then Failure(ConversionError) else Success("[object Object]")
  }

  /** An element's share of an array's text: empty for `null`, otherwise
      the element's own text. */
  function ElementText(x: Json): string {
    if x == Null then ""
    else match ToText(x)
      case Success(t) => t
      case Failure(_) => ""
  }

  function ElementTexts(items: seq<Json>): (texts: seq<string>)
    ensures |texts| == |items|
  {
    seq(|items|, i requires 0 <= i < |items| => ElementText(items[i]))
  }

  /** An array whose elements all convert reads as their texts joined by ",". */
  lemma ArrayText(items: seq<Json>)
    requires forall i :: 0 <= i < |items| ==> !NoPrimitive(items[i])
    ensures ToText(Arr(items)) == Success(JoinWith(ElementTexts(items), ","))
  {
    var parts := seq(|items|, i requires 0 <= i < |items| =>
      if items[i] == Null then Success("") else ToText(items[i]));
    var texts := MapOrThrow(Itself, parts);
    assert forall i :: 0 <= i < |items| ==>
      parts[i] == (if items[i] == Null then Success("") else ToText(items[i]));
    assert forall i :: 0 <= i < |items| ==> parts[i] == Success(ElementText(items[i]));
    assert texts.Success?;
    assert texts.value == ElementTexts(items);
  }

  lemma ElementTextsSplit(a: seq<Json>, b: seq<Json>)
    ensures ElementTexts(a + b) == ElementTexts(a) + ElementTexts(b)
  {
    assert forall i :: 0 <= i < |a| ==> (a + b)[i] == a[i];
    assert forall i :: |a| <= i < |a + b| ==> (a + b)[i] == b[i - |a|];
  }

  lemma ConvertibleConcat(a: seq<Json>, b: seq<Json>)
    requires forall i :: 0 <= i < |a| ==> !NoPrimitive(a[i])
    requires forall i :: 0 <= i < |b| ==> !NoPrimitive(b[i])
    ensures forall i :: 0 <= i < |a + b| ==> !NoPrimitive((a + b)[i])
  {
    forall i | 0 <= i < |a + b|
      ensures !NoPrimitive((a + b)[i])
    {
      if i < |a| { assert (a + b)[i] == a[i]; } else { assert (a + b)[i] == b[i - |a|]; }
    }
  }

  /** The text of an array splits at any point between two non-empty parts,
      with one "," between the texts of the parts. */
  lemma ArrayTextSplits(a: seq<Json>, b: seq<Json>)
    requires |a| > 0 && |b| > 0
    requires forall i :: 0 <= i < |a| ==> !NoPrimitive(a[i])
    requires forall i :: 0 <= i < |b| ==> !NoPrimitive(b[i])
    ensures ToText(Arr(a)).Success? && ToText(Arr(b)).Success?
    ensures ToText(Arr(a + b)) == Success(ToText(Arr(a)).value + "," + ToText(Arr(b)).value)
  {
    ConvertibleConcat(a, b);
    ArrayText(a);
    ArrayText(b);
    ArrayText(a + b);
    ElementTextsSplit(a, b);
    JoinWithSplits(ElementTexts(a), ElementTexts(b), ",");
  }

  /** A one-element array reads as its element, except that `null` reads as
      the empty text. */
  lemma ArrayTextSingle(x: Json)
    ensures ToText(Arr([x])) == (if x == Null then Success("") else ToText(x))
  {
    if !NoPrimitive(x) {
      ArrayText([x]);
    } else {
      assert NoPrimitive(Arr([x])) by { assert [x][0] == x; }
    }
  }

  /** What a template literal inserts for a possibly-undefined value, or the
      TypeError it throws. */
  function TemplateString(v: JsValue): (r: Result<string, string>)
    ensures r.Failure? <==> v.Defined? && NoPrimitive(v.value)
    ensures r.Failure? ==> r.error == ConversionError
    ensures v == Undefined ==> r == Success("undefined")
    ensures v == Defined(Null) ==> r == Success("null")
    ensures v.Defined? && v.value.Bool? ==> r == Success(if v.value.b then "true" else "false")
    ensures v.Defined? && v.value.Num? ==> r == Success(Decimal.IntToString(v.value.n))
    ensures v.Defined? && v.value.Str? ==> r == Success(v.value.s)
    ensures v.Defined? && v.value.Obj? && !NoPrimitive(v.value) ==> r == Success("[object Object]")
    ensures v.Defined? && v.value.Num? && v.value.n >= 0 ==>
      r.Success? && Decimal.AllDigits(r.value) && Decimal.DecimalValue(r.value) == v.value.n
  {
    match v
    case Undefined => Success("undefined")
    case Defined(j) => ToText(j)
  }
}
