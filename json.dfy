/**
 * JSON documents as the diff engine and the controllers see them, and the
 * pieces of JavaScript and lodash semantics the source relies on:
 * truthiness, property reads, ToString, ToNumber, loose `==`, strict `===`,
 * `_.isEqual`, `_.isObject` and `_.isEmpty`.
 *
 * Numbers are exact decimals (mantissa and a power of ten), not IEEE doubles.
 * JavaScript `undefined` is `None` of `JsVal`.
 */
module Json {
  import opened Wrappers
  import opened Strings

  function Pow10(e: nat): (p: nat)
    ensures p >= 1
  {
    if e == 0 then 1 else 10 * Pow10(e - 1)
  }

  /** The number mant * 10^(-exp). */
  datatype Num = Num(mant: int, exp: nat)

  function Int(n: int): Num { Num(n, 0) }

  /** Numeric equality of two decimals, whatever their scale. */
  predicate NumEq(x: Num, y: Num) { x.mant * Pow10(y.exp) == y.mant * Pow10(x.exp) }

  /** x <= y as numbers. */
  predicate NumLe(x: Num, y: Num) { x.mant * Pow10(y.exp) <= y.mant * Pow10(x.exp) }

  datatype Json =
    | JNull
    | JBool(b: bool)
    | JNum(n: Num)
    | JStr(s: string)
    | JArr(a: seq<Json>)
    | JObj(m: map<string, Json>)

  /** A JavaScript value as read from a JSON document: `None` is `undefined`. */
  type JsVal = Option<Json>

  function Str(s: string): JsVal { Some(JStr(s)) }

  predicate IsNullish(v: JsVal) { v.None? || v.value.JNull? }

  /** lodash `_.isObject`: arrays and objects. */
  predicate IsObject(v: JsVal) { v.Some? && (v.value.JArr? || v.value.JObj?) }

  predicate IsArray(v: JsVal) { v.Some? && v.value.JArr? }

  /** JavaScript ToBoolean. */
  predicate Truthy(v: JsVal)
  {
    match v
    case None => false
    case Some(j) =>
      match j
      case JNull => false
      case JBool(b) => b
      case JNum(n) => n.mant != 0
      case JStr(s) => s != ""
      case _ => true
  }

  /**
   * A property read `v[key]` on a value that is not null or undefined:
   * own keys of objects, `length` and canonical indexes of arrays and
   * strings (a string index gives a one-character string); everything else
   * is undefined. Reading from null or undefined throws in JavaScript; the
   * callers test for that before they read.
   */
  function Prop(v: JsVal, key: string): (r: JsVal)
    ensures v.Some? && v.value.JObj? ==> (r.Some? <==> key in v.value.m)
    ensures IsNullish(v) ==> r.None?
  {
    match v
    case None => None
    case Some(j) =>
      match j
      case JObj(m) => if key in m then Some(m[key]) else None
      case JArr(s) =>
        if key == "length" then Some(JNum(Int(|s|)))
        else if ParseIndex(key).Some? && ParseIndex(key).value < |s| then Some(s[ParseIndex(key).value])
        else None
      case JStr(s) =>
        if key == "length" then Some(JNum(Int(|s|)))
        else if ParseIndex(key).Some? && ParseIndex(key).value < |s| then Str([s[ParseIndex(key).value]])
        else None
      case _ => None
  }

  /** The element read `v[i]` for a numeric index i. */
  function At(v: JsVal, i: nat): JsVal { Prop(v, NatToString(i)) }

  /** A key an object has reads its value. */
  lemma PropOfObject(m: map<string, Json>, key: string)
    requires key in m
    ensures Prop(Some(JObj(m)), key) == Some(m[key])
  {
  }

  lemma AtArray(s: seq<Json>, i: nat)
    requires i < |s|
    ensures At(Some(JArr(s)), i) == Some(s[i])
  {
    ParseIndexOfNat(i);
    assert NatToString(i) != "length";
  }

  lemma AtString(s: string, i: nat)
    requires i < |s|
    ensures At(Str(s), i) == Str([s[i]])
  {
    ParseIndexOfNat(i);
    assert NatToString(i) != "length";
  }

  /** `x || {}` as used in chains of property reads. */
  function OrEmpty(v: JsVal): JsVal { if Truthy(v) then v else Some(JObj(map[])) }

  // ---------------------------------------------------------------- ToString

  function Zeros(n: nat): (s: string)
    ensures |s| == n
  {
    if n == 0 then "" else "0" + Zeros(n - 1)
  }

  function PadDigits(s: string, width: nat): (r: string)
    ensures |r| == if |s| < width then width else |s|
  {
    if |s| < width then Zeros(width - |s|) + s else s
  }

  /** The decimal with trailing fractional zeros removed. */
  function Normalize(n: Num): (r: Num)
    ensures r.exp <= n.exp
    ensures r.exp == 0 || r.mant % 10 != 0
    decreases n.exp
  {
    if n.exp > 0 && n.mant % 10 == 0 then Normalize(Num(n.mant / 10, n.exp - 1)) else n
  }

  function Abs(n: int): nat { if n < 0 then -n else n }

  /** The integer part of m * 10^(-e): e decimal digits dropped. */
  function WholePart(m: nat, e: nat): (q: nat)
    ensures e == 0 ==> q == m
  {
    if e == 0 then m else WholePart(m / 10, e - 1)
  }

  /** The last e decimal digits of m, as a number. */
  function FracPart(m: nat, e: nat): (q: nat)
    ensures q < Pow10(e)
  {
    if e == 0 then 0 else m % 10 + 10 * FracPart(m / 10, e - 1)
  }

  /** Number::toString in plain positional notation. */
  function NumToStr(n: Num): string
  {
    var r := Normalize(n);
    var sign := if r.mant < 0 then "-" else "";
    var whole := NatToString(WholePart(Abs(r.mant), r.exp));
    if r.exp == 0 then sign + whole
    else sign + whole + "." + PadDigits(NatToString(FracPart(Abs(r.mant), r.exp)), r.exp)
  }

  /** JavaScript ToString; an array joins its elements with ',' (null and undefined give ''). */
  function ToStr(v: JsVal): string
  {
    match v
    case None => "undefined"
    case Some(j) => JsonToStr(j)
  }

  function JsonToStr(j: Json): string
  {
    match j
    case JNull => "null"
    case JBool(b) => if b then "true" else "false"
    case JNum(n) => NumToStr(n)
    case JStr(s) => s
    case JArr(s) => JoinElements(s)
    case JObj(_) => "[object Object]"
  }

  function JoinElements(s: seq<Json>): string
  {
    if |s| == 0 then ""
    else
      var first := if s[0].JNull? then "" else JsonToStr(s[0]);
      if |s| == 1 then first else first + "," + JoinElements(s[1..])
  }

  lemma NatToStr(n: nat)
    ensures ToStr(Some(JNum(Int(n)))) == NatToString(n)
  {
    assert Normalize(Int(n)) == Int(n);
  }

  // ---------------------------------------------------------------- ToNumber

  /** The number of consecutive decimal digits of s starting at i. */
  function DigitRun(s: string, i: nat): (n: nat)
    requires i <= |s|
    ensures i + n <= |s| && AllDigits(s[i..i + n])
    ensures i + n == |s| || !IsDigit(s[i + n])
    decreases |s| - i
  {
    if i < |s| && IsDigit(s[i]) then
      var n := DigitRun(s, i + 1);
      assert s[i..i + 1 + n] == [s[i]] + s[i + 1..i + 1 + n];
      1 + n
    else 0
  }

  /** mant * 10^e for a signed exponent. */
  function Scaled(mant: int, e: int): Num
  {
    if e >= 0 then Num(mant * Pow10(e), 0) else Num(mant, -e)
  }

  /**
   * An unsigned decimal literal of JavaScript's StringNumericLiteral
   * grammar: digits, an optional fraction, an optional exponent, and at least
   * one digit before the exponent. `None` when t is not exactly that.
   */
  function UnsignedDecimal(t: string): Option<Num>
  {
    var n := DigitRun(t, 0);
    var dot := n < |t| && t[n] == '.';
    var f := if dot then DigitRun(t, n + 1) else 0;
    var mEnd := if dot then n + 1 + f else n;
    if n + f == 0 then None
    else
      var frac := if dot then t[n + 1..mEnd] else "";
      var mant := DigitsValue(t[..n] + frac);
      if mEnd == |t| then Some(Scaled(mant, -f))
      else if t[mEnd] != 'e' && t[mEnd] != 'E' then None
      else
        match Exponent(t, mEnd + 1)
        case None => None
        case Some(e) => Some(Scaled(mant, e - f))
  }

  /** A signed run of digits from eStart to the end of t, the exponent of a decimal literal. */
  function Exponent(t: string, eStart: nat): Option<int>
    requires eStart <= |t|
  {
    var neg := eStart < |t| && t[eStart] == '-';
    var dStart := if eStart < |t| && (t[eStart] == '-' || t[eStart] == '+') then eStart + 1 else eStart;
    var d := DigitRun(t, dStart);
    if d == 0 || dStart + d != |t| then None
    else
      var e: int := DigitsValue(t[dStart..]);
      Some(if neg then -e else e)
  }

  function HexDigit(c: char): Option<nat>
  {
    if '0' <= c <= '9' then Some(c as int - '0' as int)
    else if 'a' <= c <= 'f' then Some(c as int - 'a' as int + 10)
    else if 'A' <= c <= 'F' then Some(c as int - 'A' as int + 10)
    else None
  }

  /** A non-empty run of digits of the given radix, read left to right. */
  function RadixValue(s: string, radix: nat): Option<nat>
  {
    if |s| == 0 then None
    else
      var d := HexDigit(s[|s| - 1]);
      if d.None? || d.value >= radix then None
      else if |s| == 1 then Some(d.value)
      else match RadixValue(s[..|s| - 1], radix)
        case None => None
        case Some(v) => Some(v * radix + d.value)
  }

  /**
   * JavaScript StringToNumber; `None` is NaN. "Infinity" is also `None`,
   * since the model has no infinite numbers.
   */
  function StrToNum(s: string): Option<Num>
  {
    var t := Trim(s);
    if t == "" then Some(Int(0))
    else if |t| > 2 && t[0] == '0' && (t[1] == 'x' || t[1] == 'X') then
      match RadixValue(t[2..], 16) case Some(v) => Some(Int(v)) case None => None
    else if |t| > 2 && t[0] == '0' && (t[1] == 'o' || t[1] == 'O') then
      match RadixValue(t[2..], 8) case Some(v) => Some(Int(v)) case None => None
    else if |t| > 2 && t[0] == '0' && (t[1] == 'b' || t[1] == 'B') then
      match RadixValue(t[2..], 2) case Some(v) => Some(Int(v)) case None => None
    else if t[0] == '-' then
      match UnsignedDecimal(t[1..]) case Some(n) => Some(Num(-n.mant, n.exp)) case None => None
    else if t[0] == '+' then UnsignedDecimal(t[1..])
    else UnsignedDecimal(t)
  }

  lemma StrToNumOfNat(n: nat)
    ensures StrToNum(NatToString(n)) == Some(Int(n))
  {
    var t := NatToString(n);
    TrimKeepsInner(t);
    assert IsDigit(t[0]);
    assert |t| > 2 ==> IsDigit(t[1]);
    UnsignedOfDigits(t);
    NatToStringRoundTrip(n);
  }

  /** A plain run of digits reads as the integer it spells. */
  lemma UnsignedOfDigits(t: string)
    requires |t| > 0 && AllDigits(t)
    ensures UnsignedDecimal(t) == Some(Int(DigitsValue(t)))
  {
    var r := DigitRun(t, 0);
    assert r == |t|;
    assert t[..r] + "" == t;
  }

  /** JavaScript ToNumber; `None` is NaN. */
  function ToNumber(v: JsVal): Option<Num>
  {
    match v
    case None => None
    case Some(j) =>
      match j
      case JNull => Some(Int(0))
      case JBool(b) => Some(Int(if b then 1 else 0))
      case JNum(n) => Some(n)
      case JStr(s) => StrToNum(s)
      case JArr(_) => StrToNum(JsonToStr(j))
      case JObj(_) => None
  }

  // ---------------------------------------------------------------- equality

  /** Loose equality between two primitives that are neither null nor undefined. */
  predicate PrimEq(x: Json, y: Json)
  {
    if x.JStr? && y.JStr? then x.s == y.s
    else
      var p := ToNumber(Some(x));
      var q := ToNumber(Some(y));
      p.Some? && q.Some? && NumEq(p.value, q.value)
  }

  /**
   * JavaScript `==`. Two objects are equal only when they are the same
   * reference, and live and desired documents never share one; an object
   * against a primitive is first converted with ToPrimitive (its ToString).
   */
  predicate LooseEq(x: JsVal, y: JsVal)
  {
    if IsNullish(x) || IsNullish(y) then IsNullish(x) && IsNullish(y)
    else if IsObject(x) && IsObject(y) then false
    else if IsObject(x) then PrimEq(JStr(ToStr(x)), y.value)
    else if IsObject(y) then PrimEq(x.value, JStr(ToStr(y)))
    else PrimEq(x.value, y.value)
  }

  /** JavaScript `===`, again with objects from different documents never identical. */
  predicate StrictEq(x: JsVal, y: JsVal)
  {
    match (x, y)
    case (None, None) => true
    case (Some(JNull), Some(JNull)) => true
    case (Some(JBool(p)), Some(JBool(q))) => p == q
    case (Some(JNum(p)), Some(JNum(q))) => NumEq(p, q)
    case (Some(JStr(p)), Some(JStr(q))) => p == q
    case _ => false
  }

  /** lodash `_.isEqual` on JSON documents: structural, numbers compared by value. */
  predicate DeepEqJ(x: Json, y: Json)
  {
    match x
    case JNull => y.JNull?
    case JBool(b) => y == JBool(b)
    case JNum(n) => y.JNum? && NumEq(n, y.n)
    case JStr(s) => y == JStr(s)
    case JArr(xs) =>
      y.JArr? && |xs| == |y.a| && forall i :: 0 <= i < |xs| ==> DeepEqJ(xs[i], y.a[i])
    case JObj(xm) =>
      y.JObj? && xm.Keys == y.m.Keys && forall c :: c in xm ==> DeepEqJ(xm[c], y.m[c])
  }

  predicate DeepEq(x: JsVal, y: JsVal)
  {
    match (x, y)
    case (None, None) => true
    case (Some(p), Some(q)) => DeepEqJ(p, q)
    case _ => false
  }

  lemma {:induction false} DeepEqReflexive(x: Json)
    ensures DeepEqJ(x, x)
  {
    match x
    case JArr(xs) =>
      forall i | 0 <= i < |xs| ensures DeepEqJ(xs[i], xs[i]) {
        DeepEqReflexive(xs[i]);
      }
    case JObj(xm) =>
      forall c | c in xm ensures DeepEqJ(xm[c], xm[c]) {
        DeepEqReflexive(xm[c]);
      }
    case _ =>
  }

  lemma {:induction false} DeepEqSymmetric(x: Json, y: Json)
    requires DeepEqJ(x, y)
    ensures DeepEqJ(y, x)
  {
    match x
    case JArr(xs) =>
      forall i | 0 <= i < |xs| ensures DeepEqJ(y.a[i], xs[i]) {
        DeepEqSymmetric(xs[i], y.a[i]);
      }
    case JObj(xm) =>
      forall c | c in y.m ensures DeepEqJ(y.m[c], xm[c]) {
        DeepEqSymmetric(xm[c], y.m[c]);
      }
    case _ =>
  }

  /** On primitives, loose equality is reflexive (there is no NaN in a document). */
  lemma LooseEqReflexive(x: Json)
    requires !x.JArr? && !x.JObj?
    ensures LooseEq(Some(x), Some(x))
  {
  }

  /** lodash `_.isEmpty`: numbers and booleans count as empty. */
  predicate IsEmpty(v: JsVal)
  {
    match v
    case None => true
    case Some(j) =>
      match j
      case JStr(s) => |s| == 0
      case JArr(s) => |s| == 0
      case JObj(m) => |m| == 0
      case _ => true
  }

  /**
   * The test a computed entry must pass to enter a diff:
   * `(_.isObject(x) && Object.keys(x).length) || (!_.isObject(x) && x)`.
   */
  predicate Keep(v: JsVal) { if IsObject(v) then !IsEmpty(v) else Truthy(v) }

  /** `_.some(a, j => _.isEqual(item, j))`: elements of arrays, values of objects, characters of strings. */
  predicate CollectionHas(a: JsVal, item: Json)
  {
    match a
    case Some(JArr(s)) => exists j :: j in s && DeepEqJ(item, j)
    case Some(JObj(m)) => exists c :: c in m && DeepEqJ(item, m[c])
    case Some(JStr(s)) => exists i :: 0 <= i < |s| && DeepEqJ(item, JStr([s[i]]))
    case _ => false
  }
}
