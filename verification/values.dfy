/** The values a dump is taken of, and the classification the renderer does
    with `typeof`, `_isArray` and `_isNull` (dumper.js:117-123). */
module Values {
  import opened Decimal

  /** The `typeof` results the renderer has no case for. */
  datatype OtherType = Undefined | Function | Symbol | BigInt

  /** A JavaScript value restricted to a finite tree. A number `Num(n)` stands for a safe integer.
      An object's fields are listed in for-in enumeration order; an array's
      keys are its indices. */
  datatype Value =
    | Num(n: int)
    | Str(s: string)
    | Bool(b: bool)
    | Null
    | Arr(items: seq<Value>)
    | Obj(fields: seq<(string, Value)>)
    | Other(kind: OtherType)

  function TypeName(k: OtherType): string {
    match k
    case Undefined => "undefined"
    case Function => "function"
    case Symbol => "symbol"
    case BigInt => "bigint"
  }

  /** The test `typeof v === 'object'`, decided on the shape of `v`. */
  predicate IsObjectType(v: Value) {
    v.Null? || v.Arr? || v.Obj?
  }

  /** The value of `typeof v`. */
  function TypeOf(v: Value): (r: string)
    ensures |r| > 0
  {
    match v
    case Num(_) => "number"
    case Str(_) => "string"
    case Bool(_) => "boolean"
    case Null => "object"
    case Arr(_) => "object"
    case Obj(_) => "object"
    case Other(k) => TypeName(k)
  }

  /** `typeof` names exactly the kinds the renderer distinguishes: "object"
      for null, arrays and objects, and one name each for numbers, strings
      and booleans. */
  lemma TypeOfNames(v: Value)
    ensures TypeOf(v) == "object" <==> IsObjectType(v)
    ensures TypeOf(v) == "number" <==> v.Num?
    ensures TypeOf(v) == "string" <==> v.Str?
    ensures TypeOf(v) == "boolean" <==> v.Bool?
  {
  }

  /** `_isNull`: `typeof v === 'object' && v === null`. */
  predicate IsNull(v: Value) {
    IsObjectType(v) && v.Null?
  }

  /** `_isArray`: `typeof v === 'object' && v instanceof Array`. */
  predicate IsArray(v: Value) {
    IsObjectType(v) && v.Arr?
  }

  /** The test `typeof v === 'object' && v !== null` that sends a value down
      the container path. */
  predicate IsContainer(v: Value) {
    IsObjectType(v) && !v.Null?
  }

  /** A character outside the Basic Multilingual Plane, which a JavaScript
      string stores as a surrogate pair of two UTF-16 code units. */
  predicate IsAstral(c: char) {
    c as int >= 0x1_0000
  }

  /** `value.length` of a JavaScript string: its number of UTF-16 code
      units, two for each astral character and one for any other. */
  function Utf16Length(s: string): (n: nat)
    ensures |s| <= n <= 2 * |s|
  {
    if s == [] then 0 else (if IsAstral(s[0]) then 2 else 1) + Utf16Length(s[1..])
  }

  /** The UTF-16 length is the character count exactly when the string
      stays in the Basic Multilingual Plane. */
  lemma {:induction false} Utf16LengthBmp(s: string)
    ensures Utf16Length(s) == |s| <==> forall i :: 0 <= i < |s| ==> !IsAstral(s[i])
  {
    if s != [] {
      Utf16LengthBmp(s[1..]);
      assert forall i :: 1 <= i < |s| ==> s[1..][i - 1] == s[i];
      if IsAstral(s[0]) {
        assert Utf16Length(s[1..]) <= 2 * |s[1..]|;
      }
    }
  }

  /** `Object.keys(v).length` for a container. */
  function Size(v: Value): nat
    requires IsContainer(v)
  {
    if v.Arr? then |v.items| else |v.fields|
  }

  /** The for-in key of the `i`-th entry: an array's index in decimal, an
      object's field name. */
  function Key(v: Value, i: nat): string
    requires IsContainer(v) && i < Size(v)
  {
    if v.Arr? then NatToString(i) else v.fields[i].0
  }

  /** The `i`-th entry's value, `object[item]`. */
  function Child(v: Value, i: nat): (c: Value)
    requires IsContainer(v) && i < Size(v)
    ensures c < v
  {
    if v.Arr? then v.items[i] else v.fields[i].1
  }

  /** Every value falls in exactly one of the three paths of the traversal:
      null, container, or scalar. */
  lemma Classification(v: Value)
    ensures IsNull(v) <==> v == Null
    ensures IsContainer(v) <==> (v.Arr? || v.Obj?)
    ensures IsArray(v) ==> IsContainer(v)
    ensures !(IsNull(v) && IsContainer(v))
  {
  }
}
