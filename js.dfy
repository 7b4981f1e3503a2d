/** JavaScript values as an Express handler sees them in `req.query` and
    `req.body`, their truthiness, and the number coercions the handlers apply
    (`parseInt`, `parseFloat`, `String(v)`). The digit-level conversions of
    the JavaScript runtime are foreign and are passed in as oracles. */
module Js {

  import opened Options

  /** A JavaScript number as the handlers can produce it: NaN, an infinity
      (`parseFloat("Infinity")`, `parseFloat("-Infinity")`) or a finite value. */
  datatype JsNum = NaN | Inf(negative: bool) | Num(r: real)

  /** A JSON or query-string value. `Object` stands for any plain object
      (a database row, a nested query object). */
  datatype JsValue =
    | Undefined
    | Null
    | Bool(b: bool)
    | Number(n: JsNum)
    | Str(s: string)
    | Array(elems: seq<JsValue>)
    | Object(fields: seq<(string, JsValue)>)

  /** JavaScript truthiness: `undefined`, `null`, `false`, `NaN`, `0` and `""`
      are falsy; every array and every object is truthy, even an empty one,
      and so are both infinities. */
  function Truthy(v: JsValue): (b: bool)
    ensures !b <==> v in {Undefined, Null, Bool(false), Number(NaN), Number(Num(0.0)), Str("")}
  {
    match v
    case Undefined => false
    case Null => false
    case Bool(b) => b
    case Number(n) => n != NaN && n != Num(0.0)
    case Str(s) => s != ""
    case Array(_) => true
    case Object(_) => true
  }

  /** The radix argument of `parseInt`: `parseInt(t, 10)` reads decimal
      digits only, while `parseInt(t)` without a radix also reads a `0x` or
      `0X` prefix as hexadecimal (so `parseInt("0x1A")` is 26 where
      `parseInt("0x1A", 10)` is 0). */
  datatype Radix = Decimal | Unspecified

  /** The foreign conversions of the JavaScript runtime.
      `parseIntText(t, radix)` is `parseInt(t, 10)` or `parseInt(t)` for a text
      `t` that holds a decimal digit; `parseFloatText(t)` is `parseFloat(t)`
      for a text that holds a decimal digit and does not spell an infinity
      (an infinity too, for a literal beyond the largest double);
      `numberText` is the text `String(x)` gives for a finite number;
      `dateIso` is `new Date(v).toISOString()`, None when it throws;
      `conversionError` is the message of the `TypeError` that `String(v)`
      throws when `v` yields no primitive (see `StringThrows`). */
  datatype Builtins = Builtins(
    parseIntText: (string, Radix) -> JsNum,
    parseFloatText: string -> JsNum,
    numberText: real -> string,
    dateIso: JsValue -> Option<string>,
    conversionError: string)

  predicate IsDigit(c: char)
  {
    '0' <= c <= '9'
  }

  /** Whether text `t` holds a decimal digit anywhere. */
  predicate HasDigit(t: string)
  {
    exists i :: 0 <= i < |t| && IsDigit(t[i])
  }

  /** Whether an object has `k` as one of its own keys. */
  predicate HasOwnKey(fields: seq<(string, JsValue)>, k: string)
  {
    exists i :: 0 <= i < |fields| && fields[i].0 == k
  }

  /** Whether `String(v)` throws a `TypeError`. A parsed JSON object with its
      own `toString` key shadows `Object.prototype.toString` with a value that
      cannot be called, and the inherited `valueOf` gives back the object
      itself, so no primitive comes out. An array throws when one of its
      elements does, since `join` converts every element other than
      `undefined` and `null`. Such a value is truthy and defined, so neither
      the `v ? … : null` nor the `v !== undefined ? … : null` guard skips it. */
  function StringThrows(v: JsValue): (b: bool)
    ensures b ==> Truthy(v) && v != Undefined
    ensures b ==> v.Object? || v.Array?
  {
    match v
    case Object(fields) => HasOwnKey(fields, "toString")
    case Array(es) => exists i :: 0 <= i < |es| && StringThrows(es[i])
    case _ => false
  }

  /** An object carrying its own `toString` key makes `String` throw, and so
      does an array holding one, wherever it sits in the array. */
  lemma OwnToStringThrows(k: JsValue, before: seq<JsValue>, after: seq<JsValue>)
    ensures StringThrows(Object([("toString", k)]))
    ensures StringThrows(Array(before + [Object([("toString", k)])] + after))
  {
    var o := Object([("toString", k)]);
    assert o.fields[0].0 == "toString";
    var es := before + [o] + after;
    assert es[|before|] == o;
  }

  /** `String(v)`: the text JavaScript converts a value to before parsing it
      or interpolating it into a template, for a value on which it does not
      throw (`StringThrows`). A text is itself; the atoms that are not finite
      numbers spell their name, which holds no digit. */
  function ToText(v: JsValue, rt: Builtins): (t: string)
    ensures v.Str? ==> t == v.s
    ensures (v.Undefined? || v.Null? || v.Bool? || v.Object?
             || (v.Number? && !v.n.Num?)) ==> !HasDigit(t)
  {
    NamesHoldNoDigit();

    match v
    case Undefined => "undefined"
    case Null => "null"
    case Bool(b) => if b then "true" else "false"
    case Number(n) =>
      (match n
       case NaN => "NaN"
       case Inf(negative) => if negative then "-Infinity" else "Infinity"
       case Num(r) => rt.numberText(r))
    case Str(s) => s
    case Array(es) => JoinTexts(es, rt)
    case Object(_) => "[object Object]"
  }

  /** The names `String` gives the non-numeric atoms hold no digit. */
  lemma NamesHoldNoDigit()
    ensures !HasDigit("undefined") && !HasDigit("null") && !HasDigit("true") && !HasDigit("false")
    ensures !HasDigit("NaN") && !HasDigit("Infinity") && !HasDigit("-Infinity")
    ensures !HasDigit("[object Object]")
  {
  }

  /** `Array.prototype.join(",")` over the elements `es` of an array:
      `undefined` and `null` elements contribute the empty text. This is what
      a repeated query field (`?cardID=5&cardID=6`) is converted through. */
  function JoinTexts(es: seq<JsValue>, rt: Builtins): (r: string)
    ensures es == [] ==> r == ""
    ensures |es| == 1 && es[0].Str? ==> r == es[0].s
    ensures |es| == 1 && (es[0].Undefined? || es[0].Null?) ==> r == ""
    ensures |es| == 2 && es[0].Str? && es[1].Str? ==> r == es[0].s + "," + es[1].s
    ensures |es| >= 2 ==> ',' in r
  {
    if es == [] then ""
    else
      var first := if es[0].Undefined? || es[0].Null? then "" else ToText(es[0], rt);
      if |es| == 1 then first else first + "," + JoinTexts(es[1..], rt)
  }

  /** `parseInt(String(v), radix)`: a text without any decimal digit is NaN,
      whatever the radix (this covers `"Infinity"` too). */
  function ParseInt(v: JsValue, radix: Radix, rt: Builtins): (n: JsNum)
    ensures !HasDigit(ToText(v, rt)) ==> n == NaN
  {
    var t := ToText(v, rt);
    if HasDigit(t) then rt.parseIntText(t, radix) else NaN
  }

  /** The white space `parseFloat` skips before the number: the ECMAScript
      WhiteSpace and LineTerminator characters. */
  predicate IsJsSpace(c: char)
  {
    c == ' ' || c == '\t' || c == '\n' || c == '\r' || c == '\U{000B}' || c == '\U{000C}'
    || c == '\U{00A0}' || c == '\U{1680}' || ('\U{2000}' <= c <= '\U{200A}') || c == '\U{2028}'
    || c == '\U{2029}' || c == '\U{202F}' || c == '\U{205F}' || c == '\U{3000}' || c == '\U{FEFF}'
  }

  /** `t` without its leading white space. */
  function TrimStart(t: string): (r: string)
    ensures |r| <= |t| && r == t[|t| - |r|..]
    ensures r != [] ==> !IsJsSpace(r[0])
    ensures forall i :: 0 <= i < |t| - |r| ==> IsJsSpace(t[i])
  {
    if t != [] && IsJsSpace(t[0]) then TrimStart(t[1..]) else t
  }

  /** The infinity a trimmed text starts with, if any: `parseFloat` reads
      `Infinity` and `+Infinity` as positive, `-Infinity` as negative. */
  function InfinityPrefix(u: string): (r: Option<JsNum>)
    ensures r.Some? ==> r.value.Inf?
    ensures r == Some(Inf(true)) <==> "-Infinity" <= u
    ensures r == Some(Inf(false)) <==> "Infinity" <= u || "+Infinity" <= u
  {
    assert "-Infinity" <= u ==> u[0] == '-';
    assert "Infinity" <= u ==> u[0] == 'I';
    assert "+Infinity" <= u ==> u[0] == '+';
    if "-Infinity" <= u then Some(Inf(true))
    else if "Infinity" <= u || "+Infinity" <= u then Some(Inf(false))
    else None
  }

  /** `parseFloat(String(v))`: after leading white space, a spelled-out
      infinity is that infinity; otherwise a text without any decimal digit
      is NaN. */
  function ParseFloat(v: JsValue, rt: Builtins): (n: JsNum)
    ensures InfinityPrefix(TrimStart(ToText(v, rt))).Some? ==> n == InfinityPrefix(TrimStart(ToText(v, rt))).value
    ensures InfinityPrefix(TrimStart(ToText(v, rt))).None? && !HasDigit(ToText(v, rt)) ==> n == NaN
  {
    var t := ToText(v, rt);
    match InfinityPrefix(TrimStart(t))
    case Some(inf) => inf
    case None => if HasDigit(t) then rt.parseFloatText(t) else NaN
  }

  /** `x <= k` on a JavaScript number: every comparison with NaN is false,
      negative infinity is below every bound and positive infinity above
      every bound. */
  function AtMost(x: JsNum, k: real): (b: bool)
    ensures b <==> x != NaN && !Above(x, k)
  {
    match x
    case NaN => false
    case Inf(negative) => negative
    case Num(r) => r <= k
  }

  /** `x < k` on a JavaScript number: `x <= k` without `x == k`. */
  function Below(x: JsNum, k: real): (b: bool)
    ensures b <==> AtMost(x, k) && x != Num(k)
  {
    match x
    case NaN => false
    case Inf(negative) => negative
    case Num(r) => r < k
  }

  /** `x > k` on a JavaScript number: false for NaN, true for positive
      infinity, false for negative infinity. */
  function Above(x: JsNum, k: real): (b: bool)
    ensures x == NaN || x == Inf(true) ==> !b
    ensures x == Inf(false) ==> b
    ensures x.Num? ==> (b <==> x.r > k)
  {
    match x
    case NaN => false
    case Inf(negative) => !negative
    case Num(r) => r > k
  }

  /** `v ? parseInt(v, radix) : null`: a falsy raw value (absent, empty, 0)
      gives null, any other is parsed. */
  function IntOrNull(v: JsValue, radix: Radix, rt: Builtins): (r: Option<JsNum>)
    ensures r.None? <==> !Truthy(v)
    ensures r.Some? ==> r.value == ParseInt(v, radix, rt)
  {
    if Truthy(v) then Some(ParseInt(v, radix, rt)) else None
  }

  /** `v !== undefined ? parseInt(v, 10) : null`: only an absent value gives
      null; an empty text is parsed (to NaN). */
  function IntUnlessUndefined(v: JsValue, rt: Builtins): (r: Option<JsNum>)
    ensures r.None? <==> v == Undefined
    ensures r.Some? ==> r.value == ParseInt(v, Decimal, rt)
  {
    if v != Undefined then Some(ParseInt(v, Decimal, rt)) else None
  }

  /** `v !== undefined ? parseFloat(v) : null`. */
  function FloatUnlessUndefined(v: JsValue, rt: Builtins): (r: Option<JsNum>)
    ensures r.None? <==> v == Undefined
    ensures r.Some? ==> r.value == ParseFloat(v, rt)
  {
    if v != Undefined then Some(ParseFloat(v, rt)) else None
  }

  /** `v ? parseInt(v, 10) : k`: a falsy raw value gives the default `k`. */
  function IntOrDefault(v: JsValue, rt: Builtins, k: int): (r: JsNum)
    ensures !Truthy(v) ==> r == Num(k as real)
    ensures Truthy(v) ==> r == ParseInt(v, Decimal, rt)
  {
    if Truthy(v) then ParseInt(v, Decimal, rt) else Num(k as real)
  }

  /** A coerced number as the value bound to a query parameter: null or the number. */
  function Param(o: Option<JsNum>): (v: JsValue)
    ensures o.None? <==> v == Null
    ensures o.Some? ==> v == Number(o.value)
  {
    if o.Some? then Number(o.value) else Null
  }

  /** `!x` is false for a coerced number `x`. It is present exactly when it
      is a non-zero value (an infinity included), so `0`, `NaN` and null all
      count as missing. */
  function Present(o: Option<JsNum>): (b: bool)
    ensures b <==> (o.Some? && o.value != NaN && o.value != Num(0.0))
  {
    Truthy(Param(o))
  }

  /** `parseFloat("-Infinity")` is negative infinity. */
  lemma ParseFloatNegativeInfinity(rt: Builtins)
    ensures ParseFloat(Str("-Infinity"), rt) == Inf(true)
  {
    assert ToText(Str("-Infinity"), rt) == "-Infinity";
    assert TrimStart("-Infinity") == "-Infinity";
    assert InfinityPrefix("-Infinity") == Some(Inf(true));
  }

  /** `parseFloat("Infinity")` is positive infinity. */
  lemma ParseFloatPositiveInfinity(rt: Builtins)
    ensures ParseFloat(Str("Infinity"), rt) == Inf(false)
  {
    assert ToText(Str("Infinity"), rt) == "Infinity";
    assert TrimStart("Infinity") == "Infinity";
    assert InfinityPrefix("Infinity") == Some(Inf(false)) by { assert !("-Infinity" <= "Infinity"); }
  }

  /** `String(undefined)` holds no digit, so `parseInt(undefined)` is NaN. */
  lemma ParseUndefined(radix: Radix, rt: Builtins)
    ensures ParseInt(Undefined, radix, rt) == NaN && ParseFloat(Undefined, rt) == NaN
  {
    assert TrimStart("undefined") == "undefined";
  }
}
