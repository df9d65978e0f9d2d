/**
 * JavaScript values as they arrive from JSON, and the handful of language
 * operations the client and the proxy apply to them: truthiness (which decides
 * `||`, `?:` and `filter(Boolean)`), optional member access `v?.[key]`, and
 * the conversions `String(v)`, `Number(v)` and `v.toLocaleString()`.
 */
module JsValues {
  import opened Wrappers
  import opened Text

  /** A JSON-shaped JavaScript value. JSON has no NaN or infinities, so numbers are reals. */
  datatype Value =
    | Undefined
    | Null
    | Bool(b: bool)
    | Num(x: real)
    | Str(s: string)
    | Arr(items: seq<Value>)
    | Obj(fields: map<string, Value>)

  /**
   * The conversions that the engine and its locale data perform on numbers.
   * They are not modelled, so every operation that needs one receives them here.
   */
  datatype Host = Host(
    numberText: real -> string,            // Number.prototype.toString
    localeText: real -> string,            // Number.prototype.toLocaleString()
    currencyText: real -> string,          // en-US USD Intl.NumberFormat with no fraction digits
    stringToNumber: string -> Option<real> // Number(string); None stands for NaN
  )

  /** The values that JavaScript treats as true in a condition. */
  predicate Truthy(v: Value)
  {
    match v
    case Undefined => false
    case Null => false
    case Bool(b) => b
    case Num(x) => x != 0.0
    case Str(s) => s != ""
    case Arr(_) => true
    case Obj(_) => true
  }

  /** `null` or `undefined`: the values that `?.` and `??`-style checks stop at. */
  predicate Nullish(v: Value)
  {
    v.Undefined? || v.Null?
  }

  /** JavaScript's `a || b`. */
  function Or(a: Value, b: Value): Value
  {
    if Truthy(a) then a else b
  }

  /** `typeof v === 'object' && v`: an array or an object. */
  predicate IsObject(v: Value)
  {
    v.Arr? || v.Obj?
  }

  /** The array index named by a property key: decimal digits without a leading zero. */
  function IndexKey(key: string): (r: Option<nat>)
    ensures r.Some? ==> key == Decimal(r.value)
  {
    if key != [] && (forall i :: 0 <= i < |key| ==> IsDigit(key[i])) && (key[0] != '0' || key == "0")
    then
      CanonicalNumeral(key);
      Some(DigitsValue(key))
    else None
  }

  /** A digit string without a leading zero is the numeral of its own value. */
  lemma {:induction false} CanonicalNumeral(key: string)
    requires key != [] && forall i :: 0 <= i < |key| ==> IsDigit(key[i])
    requires key[0] != '0' || key == "0"
    ensures Decimal(DigitsValue(key)) == key
  {
    var n := DigitsValue(key);
    var last := key[|key| - 1];
    var init := key[..|key| - 1];
    assert n % 10 == DigitValue(last) && n / 10 == DigitsValue(init);
    if |key| == 1 {
      assert n < 10;
    } else {
      assert init[0] == key[0];
      assert init[0] != '0';
      CanonicalNumeral(init);
      NonZeroLead(init);
      assert n >= 10;
    }
  }

  lemma {:induction false} NonZeroLead(s: string)
    requires s != [] && forall i :: 0 <= i < |s| ==> IsDigit(s[i])
    requires s[0] != '0'
    ensures DigitsValue(s) > 0
  {
    if |s| > 1 {
      NonZeroLead(s[..|s| - 1]);
    }
  }

  /**
   * `v?.[key]`: a member of an object, an element of an array or a character of
   * a string; `undefined` for anything else, and never an exception.
   */
  function Get(v: Value, key: string): (r: Value)
    ensures Nullish(v) ==> r == Undefined
    ensures v.Obj? ==> r == if key in v.fields then v.fields[key] else Undefined
  {
    match v
    case Obj(m) => if key in m then m[key] else Undefined
    case Arr(xs) =>
      (match IndexKey(key)
       case Some(i) => if i < |xs| then xs[i] else Undefined
       case None => Undefined)
    case Str(s) =>
      (match IndexKey(key)
       case Some(i) => if i < |s| then Str([s[i]]) else Undefined
       case None => Undefined)
    case _ => Undefined
  }

  /** `v?.[0]`. */
  function First(v: Value): (r: Value)
    ensures v.Arr? ==> r == if v.items == [] then Undefined else v.items[0]
    ensures v.Obj? ==> r == Get(v, "0")
    ensures !IsObject(v) && !v.Str? ==> r == Undefined
  {
    assert IndexKey("0") == Some(0);
    Get(v, "0")
  }

  /** `String(v)`, which is also what template literals and `join` produce. */
  function ToText(host: Host, v: Value): string
    decreases v
  {
    match v
    case Undefined => "undefined"
    case Null => "null"
    case Bool(b) => if b then "true" else "false"
    case Num(x) => host.numberText(x)
    case Str(s) => s
    case Arr(xs) =>
      // `join` writes null and undefined elements as empty strings
      Join(seq(|xs|, i requires 0 <= i < |xs| => if Nullish(xs[i]) then "" else ToText(host, xs[i])), ",")
    case Obj(_) => "[object Object]"
  }

  /** `Number(v)`, the coercion behind `isNaN` and `Intl.NumberFormat.format`; None is NaN. */
  function NumberOf(host: Host, v: Value): Option<real>
  {
    match v
    case Undefined => None
    case Null => Some(0.0)
    case Bool(b) => Some(if b then 1.0 else 0.0)
    case Num(x) => Some(x)
    case Str(s) => host.stringToNumber(s)
    case _ => host.stringToNumber(ToText(host, v))
  }

  /** `v.toLocaleString()` for the values on which it is called without an exception. */
  function LocaleText(host: Host, v: Value): string
    decreases v
  {
    match v
    case Num(x) => host.localeText(x)
    case Bool(b) => if b then "true" else "false"
    case Str(s) => s
    case Arr(xs) =>
      Join(seq(|xs|, i requires 0 <= i < |xs| => if Nullish(xs[i]) then "" else LocaleText(host, xs[i])), ",")
    case Obj(_) => "[object Object]"
    case _ => ""  // only reached as an array element, which `join` writes as ""
  }

  /** `data[keys[0]], data[keys[1]], ...` */
  function Members(data: Value, keys: seq<string>): (r: seq<Value>)
    ensures |r| == |keys|
  {
    seq(|keys|, i requires 0 <= i < |keys| => Get(data, keys[i]))
  }

  /** JavaScript's `values[0] || values[1] || ... || values[n-1]`. */
  function Chain(values: seq<Value>): Value
    requires |values| > 0
  {
    if |values| == 1 || Truthy(values[0]) then values[0] else Chain(values[1..])
  }

  /** `a || b || ...` is its first truthy operand. */
  lemma {:induction false} ChainFirstTruthy(values: seq<Value>, i: nat)
    requires i < |values| && Truthy(values[i])
    requires forall j :: 0 <= j < i ==> !Truthy(values[j])
    ensures Chain(values) == values[i]
  {
    if i > 0 {
      assert !Truthy(values[0]);
      ChainFirstTruthy(values[1..], i - 1);
    }
  }

  /** ... and its last operand, whatever that is, when none before it is truthy. */
  lemma {:induction false} ChainAllFalsy(values: seq<Value>)
    requires |values| > 0
    requires forall j :: 0 <= j < |values| - 1 ==> !Truthy(values[j])
    ensures Chain(values) == values[|values| - 1]
  {
    if |values| > 1 {
      ChainAllFalsy(values[1..]);
    }
  }

  /** A falsy chain has only falsy operands. */
  lemma {:induction false} FalsyChain(values: seq<Value>)
    requires |values| > 0 && !Truthy(Chain(values))
    ensures forall i :: 0 <= i < |values| ==> !Truthy(values[i])
  {
    if |values| > 1 {
      FalsyChain(values[1..]);
      assert forall i :: 1 <= i < |values| ==> values[i] == values[1..][i - 1];
    }
  }
}
