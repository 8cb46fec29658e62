/**
 * The untrusted JSON value the upstream service returns, and the defensive
 * accessors (`isRecord`, `pickString`, `pickBoolean`, `pickNumber`) that read
 * typed fields out of it without assuming its shape.
 */
module JsonData {
  import opened Wrappers
  import opened Text

  /** A JavaScript number; JSON.parse yields an infinity for literals such as 1e999. */
  datatype Number = Finite(value: real) | NaN | Infinity | NegInfinity

  /** A parsed JSON value (RFC 8259); an object is a map, so a repeated key keeps one value. */
  datatype Json =
    | Null
    | Bool(b: bool)
    | Num(n: Number)
    | Str(s: string)
    | Arr(items: seq<Json>)
    | Obj(fields: map<string, Json>)

  /**
   * `typeof value === "object" && value !== null`: objects AND arrays are
   * records, null and scalars are not.
   */
  predicate IsRecord(v: Json): (b: bool)
    ensures b <==> !(v.Null? || v.Bool? || v.Num? || v.Str?)
  {
    v.Obj? || v.Arr?
  }

  /**
   * `obj[key]` on a record, None standing for `undefined`. The keys the
   * adapter reads are never array properties, so an array yields None.
   */
  function Get(v: Json, key: string): (r: Option<Json>)
    ensures r.Some? ==> v.Obj? && key in v.fields && r.value == v.fields[key]
    ensures v.Obj? && key in v.fields ==> r.Some?
  {
    if v.Obj? && key in v.fields then Some(v.fields[key]) else None
  }

  /** The field is a string with at least one non-whitespace character. */
  predicate HasText(v: Json, key: string) {
    var f := Get(v, key);
    f.Some? && f.value.Str? && !IsBlank(f.value.s)
  }

  /** `pickString`: the field as it is, if it is a string that does not trim to empty. */
  function PickString(v: Json, key: string): (r: Option<string>)
    requires IsRecord(v)
    ensures r.Some? <==> HasText(v, key)
    ensures r.Some? ==> Get(v, key) == Some(Str(r.value)) && !IsBlank(r.value)
  {
    match Get(v, key)
    case Some(Str(s)) => if |Trim(s)| > 0 then Some(s) else None
    case _ => None
  }

  /** `pickBoolean`: the field if it is a boolean. */
  function PickBoolean(v: Json, key: string): (r: Option<bool>)
    requires IsRecord(v)
    ensures r.Some? <==> Get(v, key).Some? && Get(v, key).value.Bool?
    ensures r.Some? ==> Get(v, key) == Some(Bool(r.value))
  {
    match Get(v, key)
    case Some(Bool(b)) => Some(b)
    case _ => None
  }

  /** `pickNumber`: the field if it is a finite number; NaN and the infinities are dropped. */
  function PickNumber(v: Json, key: string): (r: Option<real>)
    requires IsRecord(v)
    ensures r.Some? <==> Get(v, key).Some? && Get(v, key).value.Num? && Get(v, key).value.n.Finite?
    ensures r.Some? ==> Get(v, key) == Some(Num(Finite(r.value)))
  {
    match Get(v, key)
    case Some(Num(Finite(x))) => Some(x)
    case _ => None
  }

  /** A whitespace-only field reads as absent, whatever surrounds it. */
  lemma BlankStringIsAbsent(fields: map<string, Json>, key: string, s: string)
    requires IsBlank(s)
    ensures PickString(Obj(fields[key := Str(s)]), key) == None
  {
  }

  /** A string with visible text is returned untouched, padding included. */
  lemma PaddedStringIsKept(fields: map<string, Json>, key: string, s: string)
    requires exists i :: 0 <= i < |s| && !IsWhitespace(s[i])
    ensures PickString(Obj(fields[key := Str(s)]), key) == Some(s)
  {
  }

  /** A field holding a string that starts with a visible character is picked as it is. */
  lemma VisibleFieldIsPicked(fields: map<string, Json>, key: string, s: string)
    requires key in fields && fields[key] == Str(s)
    requires s != [] && !IsWhitespace(s[0])
    ensures PickString(Obj(fields), key) == Some(s)
  {
    assert !IsBlank(s);
  }
}
