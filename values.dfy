/** The JavaScript values that flow through the query builders: what a
    caller can pass as a column list, a predicate value or a row of data,
    with the conversions the source applies to them (truthiness, `String(v)`,
    `+v`, `Object.keys`). */
module Values {
  import opened Text

  /** A JavaScript value. Numbers are the integers only; `Fn` is a zero-argument
      getter given by its source text and the value it returns when called.
      An `Obj`'s fields are taken to have distinct keys and to be listed in
      the order `Object.keys` gives them (integer-like keys first, ascending,
      then the others in insertion order); nothing here checks either. */
  datatype Value =
    | Null
    | Undefined
    | Bool(b: bool)
    | Num(n: int)
    | Str(s: string)
    | List(items: seq<Value>)
    | Obj(fields: seq<Field>)
    | Fn(source: string, result: Value)

  /** One own enumerable property of an object, in enumeration order. */
  datatype Field = Field(key: string, value: Value)

  /** A stored predicate or column value: a value the caller gave, or the
      `Symbol` marker the builders store when the value argument is missing. */
  datatype Cell = Bound(value: Value) | Unbound

  /** JavaScript truthiness (`if (v)`). */
  predicate Truthy(v: Value)
  {
    match v
    case Null => false
    case Undefined => false
    case Bool(b) => b
    case Num(n) => n != 0
    case Str(s) => s != ""
    case _ => true
  }

  /** Truthiness of a stored cell: the unbound marker is a `Symbol`, and every
      symbol is truthy. */
  predicate CellTruthy(c: Cell)
  {
    match c
    case Unbound => true
    case Bound(v) => Truthy(v)
  }

  /** `String(v)`. Arrays print their elements joined by `,`, with `null` and
      `undefined` elements printed as nothing; plain objects print as
      `[object Object]`; a function prints its source text. */
  function JsString(v: Value): string
  {
    match v
    case Null => "null"
    case Undefined => "undefined"
    case Bool(b) => if b then "true" else "false"
    case Num(n) => IntToString(n)
    case Str(s) => s
    case List(items) => JoinItems(items)
    case Obj(_) => "[object Object]"
    case Fn(source, _) => source
  }

  /** `items.join(',')` as `Array.prototype.toString` does it. */
  function JoinItems(items: seq<Value>): string
    decreases items
  {
    if |items| == 0 then ""
    else
      var head := if items[0].Null? || items[0].Undefined? then "" else JsString(items[0]);
      if |items| == 1 then head else head + "," + JoinItems(items[1..])
  }

  /** The outcome of the numeric conversion `+v`, as far as the source looks
      at it: a whole number, or anything else (NaN, a fraction, an infinity). */
  datatype Numeric = Whole(n: int) | NotWhole

  /** `+v` */
  function ToNumber(v: Value): Numeric
  {
    match v
    case Null => Whole(0)
    case Undefined => NotWhole
    case Bool(b) => Whole(if b then 1 else 0)
    case Num(n) => Whole(n)
    case Str(s) => StringToNumber(s)
    case _ => StringToNumber(JsString(v))
  }

  predicate AllDigits(s: string)
  {
    forall i :: 0 <= i < |s| ==> '0' <= s[i] <= '9'
  }

  predicate AllZeros(s: string)
  {
    forall i :: 0 <= i < |s| ==> s[i] == '0'
  }

  /** `Number(s)` for decimal text: white space around it is ignored and the
      empty text is 0. */
  function StringToNumber(s: string): (r: Numeric)
    ensures Trim(s) == "" ==> r == Whole(0)
  {
    var t := Trim(s);
    if t == "" then Whole(0) else ReadDecimal(t)
  }

  /** An optional sign, digits and an optional fraction, with at least one
      digit; the value is whole when the fraction is all zeros. */
  function ReadDecimal(t: string): Numeric
    requires t != ""
  {
    var neg := t[0] == '-';
    var body := if t[0] == '-' || t[0] == '+' then t[1..] else t;
    var parts := SplitOn(body, '.');
    if |parts| > 2 || !AllDigits(parts[0]) || (|parts| == 2 && !AllDigits(parts[1])) then NotWhole
    else if |parts[0]| == 0 && (|parts| == 1 || |parts[1]| == 0) then NotWhole
    else if |parts| == 2 && !AllZeros(parts[1]) then NotWhole
    else Whole(if neg then -(DigitsValue(parts[0]) as int) else DigitsValue(parts[0]))
  }

  lemma DigitsNotSpace(s: string)
    requires AllDigits(s)
    ensures forall i :: 0 <= i < |s| ==> !IsJsSpace(s[i])
  {
  }

  /** The decimal text JavaScript prints for an integer reads back as that
      integer. */
  lemma StringToNumberOfInt(n: int)
    ensures StringToNumber(IntToString(n)) == Whole(n)
  {
    var m: nat := if n < 0 then -n else n;
    var digits := NatToString(m);
    var t := IntToString(n);
    DigitsNotSpace(digits);
    DigitsValueOfNat(m);
    SplitOnFree(digits, '.');
    if n < 0 {
      assert t == "-" + digits;
      assert t[1..] == digits;
      ReadSigned(digits);
    } else {
      assert t == digits;
      ReadUnsigned(digits);
    }
    assert !IsJsSpace(t[0]) && !IsJsSpace(t[|t| - 1]);
    TrimNoop(t);
  }

  lemma ReadSigned(digits: string)
    requires digits != [] && AllDigits(digits) && SplitOn(digits, '.') == [digits]
    ensures ReadDecimal("-" + digits) == Whole(-(DigitsValue(digits) as int))
  {
    assert ("-" + digits)[1..] == digits;
  }

  lemma ReadUnsigned(digits: string)
    requires digits != [] && AllDigits(digits) && SplitOn(digits, '.') == [digits]
    ensures ReadDecimal(digits) == Whole(DigitsValue(digits))
  {
    assert digits[0] != '-' && digits[0] != '+';
  }

  /** A fraction with a non-zero digit is never whole. */
  lemma StringToNumberFraction(d: string, f: string)
    requires AllDigits(d) && AllDigits(f) && !AllZeros(f)
    ensures StringToNumber(d + "." + f) == NotWhole
  {
    var t := d + "." + f;
    DigitsNotSpace(f);
    assert t[0] == (if |d| == 0 then '.' else d[0]);
    assert !IsJsSpace(t[0]) && !IsJsSpace(t[|t| - 1]);
    TrimNoop(t);
    SplitOnFree(f, '.');
    SplitOnFree(d, '.');
    SplitOnPrefix(d, f, '.');
    assert SplitOn(t, '.') == [d, f];
    assert ReadDecimal(t) == NotWhole;
  }

  /** The own enumerable properties `Object.keys` walks, in order: an
      object's fields, an array's or a string's indices. */
  function OwnEntries(v: Value): (r: seq<Field>)
    ensures v.Obj? ==> r == v.fields
    ensures v.List? ==> |r| == |v.items|
    ensures v.Str? ==> |r| == |v.s|
    ensures !(v.Obj? || v.List? || v.Str?) ==> r == []
  {
    match v
    case Obj(fields) => fields
    case List(items) => seq(|items|, i requires 0 <= i < |items| => Field(NatToString(i), items[i]))
    case Str(s) => seq(|s|, i requires 0 <= i < |s| => Field(NatToString(i), Str([s[i]])))
    case _ => []
  }
}
