/**
 * The value helpers of the browser client (app.js): `formatAddress`, `safeGet`,
 * `formatCurrency` and `formatNumber`. Each is total over JSON-shaped values,
 * except `formatAddress`, which reads a member of its argument and so throws on
 * `null` and `undefined`.
 */
module Format {
  import opened Wrappers
  import opened Text
  import opened JsValues

  const AddressPlaceholder := "Address not available"
  const NotAvailable := "N/A"

  // ---------------------------------------------------------------- formatAddress

  /** Which of the four input shapes `formatAddress` recognises, in its order of precedence. */
  datatype AddressShape = StringAddress | NestedAddress | FlatAddress | NoAddress

  function ShapeOf(data: Value): AddressShape
  {
    var a := Get(data, "address");
    if a.Str? then StringAddress
    else if IsObject(a) then NestedAddress
    else if Truthy(Or(Get(data, "streetAddress"), Get(data, "street"))) then FlatAddress
    else NoAddress
  }

  /** `[x.streetAddress || x.street || '', x.city || '', x.state || '', x.zipcode || x.zip || '']`. */
  function Components(x: Value): (c: seq<Value>)
    ensures |c| == 4
  {
    [ Or(Or(Get(x, "streetAddress"), Get(x, "street")), Str("")),
      Or(Get(x, "city"), Str("")),
      Or(Get(x, "state"), Str("")),
      Or(Or(Get(x, "zipcode"), Get(x, "zip")), Str("")) ]
  }

  /** `values.filter(Boolean)`. */
  function TruthyOnly(values: seq<Value>): (r: seq<Value>)
    ensures |r| <= |values|
    ensures forall i :: 0 <= i < |r| ==> Truthy(r[i])
  {
    if values == [] then []
    else (if Truthy(values[0]) then [values[0]] else []) + TruthyOnly(values[1..])
  }

  /** `parts.join(', ') || 'Address not available'` over the truthy parts. */
  function JoinParts(host: Host, parts: seq<Value>): string
  {
    var kept := TruthyOnly(parts);
    var joined := Join(seq(|kept|, i requires 0 <= i < |kept| => ToText(host, kept[i])), ", ");
    if joined == "" then AddressPlaceholder else joined
  }

  /**
   * `formatAddress(data)`. The caller must not pass `null` or `undefined`:
   * reading `data.address` from them throws.
   */
  function FormatAddress(host: Host, data: Value): (r: string)
    requires !Nullish(data)
    ensures ShapeOf(data) == StringAddress ==> r == Get(data, "address").s
    ensures ShapeOf(data) == NestedAddress ==> r == JoinParts(host, Components(Get(data, "address")))
    ensures ShapeOf(data) == FlatAddress ==> r == JoinParts(host, Components(data))
    ensures ShapeOf(data) == NoAddress ==> r == AddressPlaceholder
  {
    var a := Get(data, "address");
    if a.Str? then a.s
    else if IsObject(a) then JoinParts(host, Components(a))
    else if Truthy(Or(Get(data, "streetAddress"), Get(data, "street"))) then JoinParts(host, Components(data))
    else AddressPlaceholder
  }

  // ---------------------------------------------------------------- safeGet

  /** `path.split('.')`. */
  function Split(path: string): (segments: seq<string>)
    ensures |segments| >= 1
    ensures forall i, j :: 0 <= i < |segments| && 0 <= j < |segments[i]| ==> segments[i][j] != '.'
  {
    if path == [] then [""]
    else if path[0] == '.' then [""] + Split(path[1..])
    else
      var rest := Split(path[1..]);
      [[path[0]] + rest[0]] + rest[1..]
  }

  /** The reduction `segments.reduce((current, prop) => current?.[prop], obj)`. */
  function Walk(obj: Value, segments: seq<string>): Value
    decreases |segments|
  {
    if segments == [] then obj else Walk(Get(obj, segments[0]), segments[1..])
  }

  /** Once the walk reaches `null` or `undefined`, optional chaining keeps it there. */
  lemma {:induction false} WalkFromNullish(v: Value, segments: seq<string>)
    ensures Nullish(v) ==> Nullish(Walk(v, segments))
    decreases |segments|
  {
    if Nullish(v) && segments != [] {
      WalkFromNullish(Get(v, segments[0]), segments[1..]);
    }
  }

  /**
   * `safeGet(obj, path, defaultValue = 'N/A')`: the value at the dotted path
   * unless it is `null` or `undefined`. Optional chaining never throws, so the
   * `catch` branch of the source is unreachable.
   */
  function SafeGet(obj: Value, path: string, default: Value := Str(NotAvailable)): Value
  {
    var found := Walk(obj, Split(path));
    if !Nullish(found) then found else default
  }

  // ---------------------------------------------------------------- formatCurrency, formatNumber

  predicate IsNumericChar(c: char)
  {
    IsDigit(c) || c == '.' || c == '-'
  }

  /** `s.replace(/[^0-9.-]+/g, '')`. */
  function StripNonNumeric(s: string): (r: string)
    ensures |r| <= |s|
    ensures forall i :: 0 <= i < |r| ==> IsNumericChar(r[i])
  {
    if s == [] then []
    else (if IsNumericChar(s[0]) then [s[0]] else []) + StripNonNumeric(s[1..])
  }

  /**
   * `parseFloat` on a string of digits, dots and minus signs: the longest prefix
   * of the form `-?(d+(.d*)?|.d+)`, or None (NaN) when there is none.
   */
  function ParseResidue(s: string): Option<real>
    requires forall i :: 0 <= i < |s| ==> IsNumericChar(s[i])
  {
    if s != [] && s[0] == '-' then
      match ParseUnsigned(s[1..])
      case Some(x) => Some(-x)
      case None => None
    else ParseUnsigned(s)
  }

  function ParseUnsigned(t: string): Option<real>
  {
    var d := RunLength(t, 0, Digits);
    if d > 0 then
      var whole := DigitsValue(t[..d]) as real;
      if d < |t| && t[d] == '.' then Some(whole + Fraction(t, d + 1)) else Some(whole)
    else if 2 <= |t| && t[0] == '.' && IsDigit(t[1]) then Some(Fraction(t, 1))
    else None
  }

  /** The value of the digits of `t` from `start` on, read as the digits after a decimal point. */
  function Fraction(t: string, start: nat): real
    requires start <= |t|
  {
    var f := RunLength(t, start, Digits);
    DigitsValue(t[start..start + f]) as real / Pow10(f) as real
  }

  /**
   * The numeric argument after the guards shared by `formatCurrency` and
   * `formatNumber`; None is the `'N/A'` outcome. Falsy values, the literal
   * `'N/A'`, strings whose numeric residue does not parse, and values that
   * `isNaN` rejects all give None.
   */
  function Amount(host: Host, v: Value): Option<real>
  {
    if !Truthy(v) || v == Str(NotAvailable) then None
    else if v.Str? then ParseResidue(StripNonNumeric(v.s))
    else NumberOf(host, v)
  }

  /** `formatCurrency(amount)`. */
  function FormatCurrency(host: Host, amount: Value): (r: string)
    ensures !Truthy(amount) ==> r == NotAvailable
    ensures amount == Str(NotAvailable) ==> r == NotAvailable
    ensures amount.Str? && ParseResidue(StripNonNumeric(amount.s)).None? ==> r == NotAvailable
    ensures amount.Num? && amount.x != 0.0 ==> r == host.currencyText(amount.x)
    ensures amount.Str? && amount.s != NotAvailable && ParseResidue(StripNonNumeric(amount.s)).Some?
            ==> r == host.currencyText(ParseResidue(StripNonNumeric(amount.s)).value)
  {
    match Amount(host, amount)
    case None => NotAvailable
    case Some(x) => host.currencyText(x)
  }

  /** `formatNumber(num)`: numbers and numeric strings go through the locale; other values keep their own `toLocaleString`. */
  function FormatNumber(host: Host, num: Value): (r: string)
    ensures !Truthy(num) ==> r == NotAvailable
    ensures num == Str(NotAvailable) ==> r == NotAvailable
    ensures num.Str? && ParseResidue(StripNonNumeric(num.s)).None? ==> r == NotAvailable
    ensures num.Num? && num.x != 0.0 ==> r == host.localeText(num.x)
    ensures num.Str? && num.s != NotAvailable && ParseResidue(StripNonNumeric(num.s)).Some?
            ==> r == host.localeText(ParseResidue(StripNonNumeric(num.s)).value)
  {
    match Amount(host, num)
    case None => NotAvailable
    case Some(x) => if num.Str? then host.localeText(x) else LocaleText(host, num)
  }
}

/** Properties of the client's value helpers. */
module FormatFacts {
  import opened Wrappers
  import opened Text
  import opened JsValues
  import opened Format

  // ---------------------------------------------------------------- formatAddress

  /** The strings of a list that are not empty, in their order. */
  function NonEmpty(parts: seq<string>): (r: seq<string>)
    ensures forall i :: 0 <= i < |r| ==> r[i] != ""
  {
    if parts == [] then []
    else (if parts[0] != "" then [parts[0]] else []) + NonEmpty(parts[1..])
  }

  /**
   * A reference join that works left to right and adds a component only when it
   * is not empty, writing the separator only between two components.
   */
  function JoinSkippingEmpty(acc: string, parts: seq<string>, sep: string): string
    decreases |parts|
  {
    if parts == [] then acc
    else
      var next := if parts[0] == "" then acc else if acc == "" then parts[0] else acc + sep + parts[0];
      JoinSkippingEmpty(next, parts[1..], sep)
  }

  lemma {:induction false} JoinSnoc(parts: seq<string>, p: string, sep: string)
    requires parts != []
    ensures Join(parts + [p], sep) == Join(parts, sep) + sep + p
  {
    if |parts| == 1 {
      assert parts + [p] == [parts[0], p];
    } else {
      assert (parts + [p])[1..] == parts[1..] + [p];
      JoinSnoc(parts[1..], p, sep);
    }
  }

  lemma {:induction false} JoinOfNonEmptyIsEmpty(parts: seq<string>, sep: string)
    requires forall i :: 0 <= i < |parts| ==> parts[i] != ""
    ensures Join(parts, sep) == "" <==> parts == []
  {
    if |parts| > 1 {
      assert |Join(parts, sep)| >= |parts[0]|;
    }
  }

  lemma {:induction false} NonEmptyAppend(a: seq<string>, b: seq<string>)
    ensures NonEmpty(a + b) == NonEmpty(a) + NonEmpty(b)
  {
    if a != [] {
      assert (a + b)[1..] == a[1..] + b;
      NonEmptyAppend(a[1..], b);
    } else {
      assert a + b == b;
    }
  }

  /** The left-to-right reference join is the join of the non-empty components. */
  lemma {:induction false} JoinSkippingEmptyIsJoin(done: seq<string>, parts: seq<string>, sep: string)
    ensures JoinSkippingEmpty(Join(NonEmpty(done), sep), parts, sep) == Join(NonEmpty(done + parts), sep)
    decreases |parts|
  {
    if parts == [] {
      assert done + parts == done;
    } else {
      var acc := Join(NonEmpty(done), sep);
      var p := parts[0];
      var next := if p == "" then acc else if acc == "" then p else acc + sep + p;
      NonEmptyAppend(done, [p]);
      assert [p][1..] == [];
      assert NonEmpty([p]) == (if p != "" then [p] else []);
      JoinOfNonEmptyIsEmpty(NonEmpty(done), sep);
      if p == "" {
        assert NonEmpty(done + [p]) == NonEmpty(done);
      } else if acc == "" {
        assert NonEmpty(done + [p]) == [p];
      } else {
        JoinSnoc(NonEmpty(done), p, sep);
      }
      assert next == Join(NonEmpty(done + [p]), sep);
      assert done + parts == (done + [p]) + parts[1..];
      JoinSkippingEmptyIsJoin(done + [p], parts[1..], sep);
    }
  }

  /** `filter(Boolean)` on strings keeps exactly the non-empty ones. */
  lemma {:induction false} TruthyStrings(host: Host, values: seq<Value>)
    requires forall i :: 0 <= i < |values| ==> values[i].Str?
    ensures var kept := TruthyOnly(values);
      seq(|kept|, i requires 0 <= i < |kept| => ToText(host, kept[i])) == NonEmpty(StrTexts(values))
  {
    if values != [] {
      TruthyStrings(host, values[1..]);
      assert StrTexts(values)[1..] == StrTexts(values[1..]);
    }
  }

  /** The value whose components `formatAddress` joins: the nested object, or the record itself. */
  function AddressSource(data: Value): Value
  {
    if ShapeOf(data) == NestedAddress then Get(data, "address") else data
  }

  function StrTexts(values: seq<Value>): (r: seq<string>)
    requires forall i :: 0 <= i < |values| ==> values[i].Str?
    ensures |r| == |values| && forall i :: 0 <= i < |values| ==> r[i] == values[i].s
  {
    seq(|values|, i requires 0 <= i < |values| => values[i].s)
  }

  /**
   * When every component of the chosen shape is a string, `formatAddress` lists
   * the non-empty ones in the order street, city, state, zip with `", "` between
   * two of them and never around an empty one; it gives the placeholder when all
   * four are empty.
   */
  lemma AddressOfStringComponents(host: Host, data: Value)
    requires !Nullish(data)
    requires ShapeOf(data) == NestedAddress || ShapeOf(data) == FlatAddress
    requires forall i :: 0 <= i < 4 ==> Components(AddressSource(data))[i].Str?
    ensures NonEmpty(StrTexts(Components(AddressSource(data)))) == [] ==> FormatAddress(host, data) == AddressPlaceholder
    ensures NonEmpty(StrTexts(Components(AddressSource(data)))) != [] ==>
      FormatAddress(host, data) == JoinSkippingEmpty("", StrTexts(Components(AddressSource(data))), ", ")
  {
    var values := Components(AddressSource(data));
    assert FormatAddress(host, data) == JoinParts(host, values);
    StringParts(host, values);
  }

  /** `parts.filter(Boolean).join(', ') || 'Address not available'` on strings is the reference join of the non-empty ones. */
  lemma StringParts(host: Host, values: seq<Value>)
    requires forall i :: 0 <= i < |values| ==> values[i].Str?
    ensures NonEmpty(StrTexts(values)) == [] ==> JoinParts(host, values) == AddressPlaceholder
    ensures NonEmpty(StrTexts(values)) != [] ==> JoinParts(host, values) == JoinSkippingEmpty("", StrTexts(values), ", ")
  {
    var parts := StrTexts(values);
    TruthyStrings(host, values);
    JoinOfNonEmptyIsEmpty(NonEmpty(parts), ", ");
    assert NonEmpty([]) == [];
    assert [] + parts == parts;
    JoinSkippingEmptyIsJoin([], parts, ", ");
  }

  // ---------------------------------------------------------------- safeGet

  /** Splitting on `.` and joining with `.` gives back the path. */
  lemma {:induction false} SplitJoin(path: string)
    ensures Join(Split(path), ".") == path
  {
    if path != [] {
      SplitJoin(path[1..]);
    }
  }

  /** A key without a dot is a path of one segment. */
  lemma {:induction false} SplitPlainKey(key: string)
    requires forall i :: 0 <= i < |key| ==> key[i] != '.'
    ensures Split(key) == [key]
  {
    if key != [] {
      SplitPlainKey(key[1..]);
      assert [key[0]] + key[1..] == key;
    }
  }

  lemma {:induction false} WalkAppend(obj: Value, a: seq<string>, b: seq<string>)
    ensures Walk(obj, a + b) == Walk(Walk(obj, a), b)
    decreases |a|
  {
    if a != [] {
      assert (a + b)[1..] == a[1..] + b;
      WalkAppend(Get(obj, a[0]), a[1..], b);
    } else {
      assert a + b == b;
    }
  }

  /**
   * `safeGet` returns the default as soon as any prefix of the path leads to
   * `null` or `undefined`: a missing segment anywhere ends the walk.
   */
  lemma MissingSegmentGivesDefault(obj: Value, path: string, default: Value, i: nat)
    requires i <= |Split(path)|
    requires Nullish(Walk(obj, Split(path)[..i]))
    ensures SafeGet(obj, path, default) == default
  {
    var segments := Split(path);
    assert segments == segments[..i] + segments[i..];
    WalkAppend(obj, segments[..i], segments[i..]);
    WalkFromNullish(Walk(obj, segments[..i]), segments[i..]);
  }

  /** For a single key, `safeGet` is member access with the default for `null` and `undefined`; 0, '' and false are returned as they are. */
  lemma SafeGetKey(obj: Value, key: string, default: Value)
    requires forall i :: 0 <= i < |key| ==> key[i] != '.'
    ensures var v := Get(obj, key);
      SafeGet(obj, key, default) == if Nullish(v) then default else v
  {
    SplitPlainKey(key);
    assert Walk(obj, [key]) == Walk(Get(obj, key), []);
  }

  /** A dot-free prefix joins the first segment of what follows it. */
  lemma {:induction false} SplitDotFreePrefix(a: string, rest: string)
    requires forall i :: 0 <= i < |a| ==> a[i] != '.'
    ensures Split(a + rest) == [a + Split(rest)[0]] + Split(rest)[1..]
  {
    var r := Split(rest);
    if a == [] {
      assert a + rest == rest && a + r[0] == r[0];
      assert r == [r[0]] + r[1..];
    } else {
      var tail := a[1..] + rest;
      assert a + rest == [a[0]] + tail;
      SplitDotFreePrefix(a[1..], rest);
      var t := Split(tail);
      assert t[0] == a[1..] + r[0] && t[1..] == r[1..];
      assert ([a[0]] + tail)[1..] == tail;
      assert Split(a + rest) == [[a[0]] + t[0]] + t[1..];
      assert [a[0]] + (a[1..] + r[0]) == a + r[0];
    }
  }

  /** `safeGet(obj, 'a.b')` is `obj?.a?.b`, with the default for `null` and `undefined`. */
  lemma SafeGetNested(obj: Value, a: string, b: string, default: Value)
    requires forall i :: 0 <= i < |a| ==> a[i] != '.'
    requires forall i :: 0 <= i < |b| ==> b[i] != '.'
    ensures var v := Get(Get(obj, a), b);
      SafeGet(obj, a + "." + b, default) == if Nullish(v) then default else v
  {
    SplitPlainKey(b);
    assert Split("." + b) == [""] + Split(b);
    assert a + "." + b == a + ("." + b);
    SplitDotFreePrefix(a, "." + b);
    assert a + "" == a;
    assert Split(a + "." + b) == [a, b];
    assert Walk(obj, [a, b]) == Walk(Get(obj, a), [b]);
    assert Walk(Get(obj, a), [b]) == Walk(Get(Get(obj, a), b), []);
  }

  // ---------------------------------------------------------------- the numeric guard

  /** Stripping a string that holds only digits, dots and minus signs leaves it unchanged. */
  lemma {:induction false} StripNumericUnchanged(s: string)
    requires forall i :: 0 <= i < |s| ==> IsNumericChar(s[i])
    ensures StripNonNumeric(s) == s
  {
    if s != [] {
      StripNumericUnchanged(s[1..]);
    }
  }

  /** Stripping is idempotent. */
  lemma StripIdempotent(s: string)
    ensures StripNonNumeric(StripNonNumeric(s)) == StripNonNumeric(s)
  {
    StripNumericUnchanged(StripNonNumeric(s));
  }

  /** A single character is kept exactly when it is a digit, `.` or `-`. */
  lemma StripChar(c: char)
    ensures StripNonNumeric([c]) == if IsNumericChar(c) then [c] else []
  {
    assert [c][1..] == [];
  }

  /** Stripping works character by character, keeping the order: it distributes over concatenation. */
  lemma {:induction false} StripAppend(a: string, b: string)
    ensures StripNonNumeric(a + b) == StripNonNumeric(a) + StripNonNumeric(b)
  {
    if a == [] {
      assert a + b == b;
    } else {
      assert (a + b)[0] == a[0];
      assert (a + b)[1..] == a[1..] + b;
      StripAppend(a[1..], b);
    }
  }

  /** A string with any character other than a digit, `.` or `-` loses it: stripping keeps a string whole only when it is numeric already. */
  lemma {:induction false} StripDropsOthers(s: string, k: nat)
    requires k < |s| && !IsNumericChar(s[k])
    ensures |StripNonNumeric(s)| < |s|
  {
    if k > 0 {
      StripDropsOthers(s[1..], k - 1);
    }
  }

  /** `parseFloat` of a decimal numeral is the number it was written from. */
  lemma ParseDecimal(n: nat)
    ensures forall i :: 0 <= i < |Decimal(n)| ==> IsNumericChar(Decimal(n)[i])
    ensures ParseResidue(Decimal(n)) == Some(n as real)
  {
    var s := Decimal(n);
    var d := RunLength(s, 0, Digits);
    assert d == |s|;
    assert s[..d] == s;
    DecimalValue(n);
  }

  /**
   * Formatting decoration is ignored: a string whose digits, dots and minus
   * signs spell the numeral of `n` (a dollar sign and thousands commas around
   * them, say) formats as the number `n` itself. This holds for `n == 0`
   * too: `"$0"` is a truthy string, so it is formatted, where the number `0`
   * gives 'N/A'.
   */
  lemma DecoratedAmount(host: Host, n: nat, decorated: string)
    requires StripNonNumeric(decorated) == Decimal(n)
    ensures FormatCurrency(host, Str(decorated)) == host.currencyText(n as real)
    ensures FormatNumber(host, Str(decorated)) == host.localeText(n as real)
  {
    ParseDecimal(n);
    assert decorated != NotAvailable;
  }
}
