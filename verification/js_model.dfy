/**
 * The JavaScript values the front end handles: parsed JSON bodies, the
 * payloads it flattens into multipart forms, and the errors that fetch,
 * response parsing and the activation script throw.
 */
module JsModel {

  datatype Option<+T> = None | Some(value: T)

  datatype Result<+T, +E> = Ok(value: T) | Err(error: E)

  /** A JavaScript value. Numbers are integers (see README, "Left out"). */
  datatype Value =
    | Undefined
    | Null
    | Bool(b: bool)
    | Num(n: int)
    | Str(s: string)
    | DateVal(text: string)               // a Date object; `text` is what String() gives for it
    | FileVal(name: string)               // a File object
    | Arr(items: seq<Value>)
    | Obj(fields: seq<(string, Value)>)   // an object; `fields` in Object.keys order, keys distinct

  /** JavaScript truthiness: undefined, null, false, 0 and "" are falsy; every object is truthy. */
  predicate Truthy(v: Value)
  {
    match v
    case Undefined => false
    case Null => false
    case Bool(b) => b
    case Num(n) => n != 0
    case Str(s) => s != ""
    case _ => true
  }

  /** The `typeof` operator: "object" for null and for every object, Dates and Files included. */
  function TypeOf(v: Value): string
  {
    match v
    case Undefined => "undefined"
    case Bool(_) => "boolean"
    case Num(_) => "number"
    case Str(_) => "string"
    case _ => "object"
  }

  /** A value the form flattening descends into: a plain object or an array. */
  predicate IsComposite(v: Value)
  {
    v.Arr? || v.Obj?
  }

  /**
   * The guard of the flattening, `data && typeof data === 'object' &&
   * !(data instanceof Date) && !(data instanceof File)`, holds exactly for
   * the plain objects and arrays. Null passes the `typeof` test and is
   * kept out only by being falsy.
   */
  lemma CompositeIsTruthyObject(v: Value)
    ensures IsComposite(v) <==> Truthy(v) && TypeOf(v) == "object" && !v.DateVal? && !v.FileVal?
    ensures v.Null? ==> TypeOf(v) == "object" && !Truthy(v)
  {
  }

  function DigitChar(d: nat): (c: char)
    requires d < 10
    ensures '0' <= c <= '9'
  {
    "0123456789"[d]
  }

  /** The digit character of `d` denotes `d`. */
  lemma DigitCharValue(d: nat)
    requires d < 10
    ensures DigitChar(d) as int - '0' as int == d
  {
    var digits := "0123456789";
    assert digits[0] == '0' && digits[1] == '1' && digits[2] == '2' && digits[3] == '3' && digits[4] == '4';
    assert digits[5] == '5' && digits[6] == '6' && digits[7] == '7' && digits[8] == '8' && digits[9] == '9';
  }

  /** The number a string of decimal digits denotes, most significant digit first. */
  function DecimalValue(s: string): int
  {
    if s == [] then 0 else DecimalValue(s[..|s| - 1]) * 10 + (s[|s| - 1] as int - '0' as int)
  }

  /** Decimal representation of a natural number, as String(n) gives it. */
  function NatToString(n: nat): (r: string)
    ensures |r| >= 1
    ensures forall i :: 0 <= i < |r| ==> '0' <= r[i] <= '9'
    ensures n < 10 <==> |r| == 1
    decreases n
  {
    if n < 10 then [DigitChar(n)] else NatToString(n / 10) + [DigitChar(n % 10)]
  }

  /** String(n) is the numeral of `n`: no leading zero, and its digits denote `n`. */
  lemma {:induction false} NatToStringIsNumeral(n: nat)
    ensures |NatToString(n)| > 1 ==> NatToString(n)[0] != '0'
    ensures DecimalValue(NatToString(n)) == n
    decreases n
  {
    var r := NatToString(n);
    if n < 10 {
      DigitCharValue(n);
      assert r[..0] == [];
    } else {
      DigitCharValue(n % 10);
      var prefix := NatToString(n / 10);
      NatToStringIsNumeral(n / 10);
      assert r == prefix + [DigitChar(n % 10)];
      assert r[..|r| - 1] == prefix;
      assert r[0] == prefix[0];
    }
  }

  /** String(v): the text a value turns into when JavaScript coerces it to a string. */
  function ToJsString(v: Value): string
    decreases v, 1
  {
    match v
    case Undefined => "undefined"
    case Null => "null"
    case Bool(b) => if b then "true" else "false"
    case Num(n) => if n < 0 then "-" + NatToString(-n) else NatToString(n)
    case Str(s) => s
    case DateVal(text) => text
    case FileVal(_) => "[object File]"
    case Arr(_) => JoinFrom(v, 0)
    case Obj(_) => "[object Object]"
  }

  /**
   * Array.prototype.join(",") applied to the items of `arr` from index `i`
   * on: null and undefined items contribute the empty string.
   */
  function JoinFrom(arr: Value, i: nat): string
    requires arr.Arr? && i <= |arr.items|
    decreases arr, 0, |arr.items| - i
  {
    if i == |arr.items| then ""
    else
      var item := if arr.items[i].Null? || arr.items[i].Undefined? then "" else ToJsString(arr.items[i]);
      if i + 1 == |arr.items| then item else item + "," + JoinFrom(arr, i + 1)
  }

  /** What a JavaScript error object says about itself. */
  datatype ErrorKind = TypeError | SyntaxError | PlainError

  /** An Error object: its class and its `message`. */
  datatype JsError = JsError(kind: ErrorKind, message: string)

  /** What a `throw` can carry: an Error object or a bare string. */
  datatype Thrown = ThrownError(error: JsError) | ThrownString(text: string)

  /** The value of the field named `key` in `fields`; undefined when absent. */
  function FieldValue(fields: seq<(string, Value)>, key: string): (r: Value)
    ensures (forall i :: 0 <= i < |fields| ==> fields[i].0 != key) ==> r == Undefined
    ensures r != Undefined ==> exists i :: 0 <= i < |fields| && fields[i] == (key, r)
  {
    if fields == [] then Undefined
    else if fields[0].0 == key then fields[0].1
    else FieldValue(fields[1..], key)
  }

  /**
   * Reading `v[key]` for the property names "error" and "message" that the
   * activation script reads. Reading a property of null or undefined throws
   * a TypeError; no value other than a plain object has either property.
   */
  function Property(v: Value, key: string): (r: Result<Value, JsError>)
    ensures r.Err? <==> v.Null? || v.Undefined?
    ensures r.Err? ==> r.error.kind == TypeError
    ensures v.Obj? ==> r == Ok(FieldValue(v.fields, key))
    ensures r.Ok? && !v.Obj? ==> r.value == Undefined
  {
    match v
    case Null => Err(JsError(TypeError, "Cannot read properties of null (reading '" + key + "')"))
    case Undefined => Err(JsError(TypeError, "Cannot read properties of undefined (reading '" + key + "')"))
    case Obj(fields) => Ok(FieldValue(fields, key))
    case _ => Ok(Undefined)
  }
}
