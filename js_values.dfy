/**
 * The part of JavaScript's value semantics that the MQTT message handler depends on:
 * the result of `JSON.parse` (or its `{}` fallback), property access that throws on
 * `null`/`undefined`, and the string conversion a template literal applies.
 */
module JsValues {

  /** A parsed JSON document, plus `undefined`, which property access yields for a missing member.
      A number is carried as the text JavaScript prints for it (`String(n)`). */
  datatype JsValue =
    | Undefined
    | Null
    | Bool(b: bool)
    | Num(text: string)
    | Str(s: string)
    | Arr(items: seq<JsValue>)
    | Obj(fields: map<string, JsValue>)

  /** What `JSON.parse(messageRaw)` did: returned a value or threw a SyntaxError. */
  datatype Parsed = Parsed(value: JsValue) | Malformed

  /** An expression either evaluates to a value or throws a TypeError. */
  datatype Outcome<T> = Returns(value: T) | Throws

  /** The handler's `message`: the parsed value, or `{}` when parsing failed. */
  function Decode(p: Parsed): (v: JsValue)
    ensures p.Malformed? ==> v == Obj(map[])
    ensures p.Parsed? ==> v == p.value
  {
    match p
    case Parsed(value) => value
    case Malformed => Obj(map[])
  }

  predicate Nullish(v: JsValue) {
    v.Undefined? || v.Null?
  }

  /** `v[name]` for a value that is not nullish. Only own members of objects are modelled; the
      names the handler reads (`SML`, `Verbrauch`, `Leistung`) are not built-in members of any
      JavaScript prototype, so every other value yields `undefined` for them. */
  function Property(v: JsValue, name: string): JsValue {
    if v.Obj? && name in v.fields then v.fields[name] else Undefined
  }

  /** `v.name`: a TypeError exactly when `v` is `null` or `undefined`. */
  function Member(v: JsValue, name: string): (r: Outcome<JsValue>)
    ensures r.Throws? <==> Nullish(v)
    ensures r.Returns? ==> r.value == Property(v, name)
  {
    if Nullish(v) then Throws else Returns(Property(v, name))
  }

  /** Whether converting `v` to a primitive throws a TypeError, as the template literal
      `${v}` and the comparison `v < 50` both do first. A value from `JSON.parse` has no
      callable members, so an object with its own `toString` member has no usable
      conversion: that `toString` is not callable and the inherited `valueOf` returns the
      object itself. Every other object converts through the inherited `toString`. An array
      converts by joining its items, so it throws when one of them does. */
  predicate ConversionThrows(v: JsValue)
    decreases v
  {
    match v
    case Obj(fields) => "toString" in fields
    case Arr(items) => exists i :: 0 <= i < |items| && ConversionThrows(items[i])
    case _ => false
  }

  /** The text `${v}` produces, or the TypeError its conversion throws. */
  function ToText(v: JsValue): (r: Outcome<string>)
    ensures r.Throws? <==> ConversionThrows(v)
    ensures v.Num? ==> r == Returns(v.text)
    ensures v.Str? ==> r == Returns(v.s)
    decreases v, 1
  {
    match v
    case Undefined => Returns("undefined")
    case Null => Returns("null")
    case Bool(b) => Returns(if b then "true" else "false")
    case Num(text) => Returns(text)
    case Str(s) => Returns(s)
    case Arr(items) => JoinItems(items, 0)
    case Obj(fields) => if "toString" in fields then Throws else Returns("[object Object]")
  }

  /** `Array.prototype.join(",")` over `items[i..]`, where `null` and `undefined` print as
      nothing; it throws as soon as one item's conversion does. */
  function JoinItems(items: seq<JsValue>, i: nat): (r: Outcome<string>)
    requires i <= |items|
    ensures r.Throws? <==> exists j :: i <= j < |items| && ConversionThrows(items[j])
    decreases Arr(items), 0, |items| - i
  {
    if i == |items| then Returns("")
    else
      var head := if Nullish(items[i]) then Returns("") else ToText(items[i]);
      match head
      case Throws => Throws
      case Returns(h) =>
        match JoinItems(items, i + 1)
        case Throws => Throws
        case Returns(t) => Returns((if i == 0 then "" else ",") + h + t)
  }
}
