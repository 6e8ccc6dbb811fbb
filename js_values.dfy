/** The JSON values the browser scripts receive from the backend, and the few
    JavaScript operators the scripts apply to them: truthiness, `a || b`,
    `a ?? b`, property access, `Number(v)`, `String(v)` and `s.trim()`. */
module JsValues {
  import opened Decimal

  datatype Option<+T> = None | Some(value: T)

  /** A JavaScript value as it arrives from `res.json()`, plus `undefined`
      (what reading a missing property yields). `Num` holds a finite number;
      `NaN` is the one non-finite number the scripts can produce. */
  datatype Value =
    | Undefined
    | Null
    | Bool(b: bool)
    | Num(x: real)
    | NaN
    | Str(s: string)
    | Arr(items: seq<Value>)
    | Obj(fields: map<string, Value>)

  /** The own properties of an object, by name. */
  type Record = map<string, Value>

  /** How `String(x)` writes a finite number (the shortest text that reads back
      as the same double). It is a parameter of the model, not defined by it. */
  type NumberFormat = real -> string

  /** JavaScript truthiness: `undefined`, `null`, `false`, `0`, `NaN` and `""`
      are falsy, everything else is truthy. */
  predicate Truthy(v: Value) {
    match v
    case Undefined | Null | NaN => false
    case Bool(b) => b
    case Num(x) => x != 0.0
    case Str(s) => s != ""
    case Arr(_) | Obj(_) => true
  }

  /** The values that `??` falls through: `undefined` and `null`. */
  predicate Nullish(v: Value) {
    v.Undefined? || v.Null?
  }

  /** `a || b` */
  function Or(a: Value, b: Value): Value {
    if Truthy(a) then a else b
  }

  /** `a ?? b` */
  function Coalesce(a: Value, b: Value): Value {
    if Nullish(a) then b else a
  }

  /** `r.key` on an object: `undefined` when the property is absent. */
  function Get(r: Record, key: string): Value {
    if key in r then r[key] else Undefined
  }

  /** The index of the first truthy value in `vals`, or `|vals|` when there is none. */
  function FirstTruthyIndex(vals: seq<Value>): (k: nat)
    ensures k <= |vals|
    ensures k < |vals| ==> Truthy(vals[k])
    ensures forall j | 0 <= j < k :: !Truthy(vals[j])
  {
    if vals == [] then 0
    else if Truthy(vals[0]) then 0
    else 1 + FirstTruthyIndex(vals[1..])
  }

  /** The index of the first value in `vals` that is neither `undefined` nor
      `null`, or `|vals|` when there is none. */
  function FirstPresentIndex(vals: seq<Value>): (k: nat)
    ensures k <= |vals|
    ensures k < |vals| ==> !Nullish(vals[k])
    ensures forall j | 0 <= j < k :: Nullish(vals[j])
  {
    if vals == [] then 0
    else if !Nullish(vals[0]) then 0
    else 1 + FirstPresentIndex(vals[1..])
  }

  /** The declarative reading of an alias chain `a || b || … || default`:
      the first truthy alias, else the default. */
  function FirstTruthy(aliases: seq<Value>, default: Value): Value {
    var k := FirstTruthyIndex(aliases);
    if k < |aliases| then aliases[k] else default
  }

  /** The declarative reading of an alias chain `a ?? b ?? … ?? default`:
      the first alias that is neither `undefined` nor `null`, else the default. */
  function FirstPresent(aliases: seq<Value>, default: Value): Value {
    var k := FirstPresentIndex(aliases);
    if k < |aliases| then aliases[k] else default
  }

  /** A `||` chain written left to right, as the scripts write it, picks the
      first truthy alias. */
  lemma {:induction false} OrChainIsFirstTruthy(aliases: seq<Value>, default: Value)
    ensures OrChain(aliases, default) == FirstTruthy(aliases, default)
  {
    if aliases != [] {
      OrChainIsFirstTruthy(aliases[1..], default);
    }
  }

  /** A `??` chain written left to right picks the first present alias. */
  lemma {:induction false} CoalesceChainIsFirstPresent(aliases: seq<Value>, default: Value)
    ensures CoalesceChain(aliases, default) == FirstPresent(aliases, default)
  {
    if aliases != [] {
      CoalesceChainIsFirstPresent(aliases[1..], default);
    }
  }

  /** `aliases[0] || aliases[1] || … || default` (`||` groups to the right in
      value: `(a || b) || c` and `a || (b || c)` always agree). */
  function OrChain(aliases: seq<Value>, default: Value): Value {
    if aliases == [] then default else Or(aliases[0], OrChain(aliases[1..], default))
  }

  /** `aliases[0] ?? aliases[1] ?? … ?? default`. */
  function CoalesceChain(aliases: seq<Value>, default: Value): Value {
    if aliases == [] then default else Coalesce(aliases[0], CoalesceChain(aliases[1..], default))
  }

  /** `a || b || c || d` as JavaScript groups it, `((a || b) || c) || d`,
      picks the first truthy of `a`, `b`, `c`, else `d`. */
  lemma OrChain3(a: Value, b: Value, c: Value, d: Value)
    ensures Or(Or(Or(a, b), c), d) == FirstTruthy([a, b, c], d)
  {
    OrChainIsFirstTruthy([a, b, c], d);
    assert [a, b, c][1..] == [b, c] && [b, c][1..] == [c] && [c][1..] == [];
    assert OrChain([c], d) == Or(c, d);
    assert OrChain([b, c], d) == Or(b, Or(c, d));
    assert OrChain([a, b, c], d) == Or(a, Or(b, Or(c, d)));
  }

  /** `a ?? b ?? c ?? d`, grouped `((a ?? b) ?? c) ?? d`, picks the first of
      `a`, `b`, `c` that is neither `null` nor `undefined`, else `d`. */
  lemma CoalesceChain3(a: Value, b: Value, c: Value, d: Value)
    ensures Coalesce(Coalesce(Coalesce(a, b), c), d) == FirstPresent([a, b, c], d)
  {
    CoalesceChainIsFirstPresent([a, b, c], d);
    assert [a, b, c][1..] == [b, c] && [b, c][1..] == [c] && [c][1..] == [];
    assert CoalesceChain([c], d) == Coalesce(c, d);
    assert CoalesceChain([b, c], d) == Coalesce(b, Coalesce(c, d));
    assert CoalesceChain([a, b, c], d) == Coalesce(a, Coalesce(b, Coalesce(c, d)));
  }

  /** Reading the fields of an array element `p` with `p.key`: an object gives
      its properties, any other value except `null`/`undefined` gives no
      property the scripts read, and `null`/`undefined` make the access throw
      a `TypeError`, modelled as `None`. */
  function AsRecord(v: Value): (r: Option<Record>)
    ensures r.None? <==> Nullish(v)
    ensures v.Obj? ==> r == Some(v.fields)
  {
    match v
    case Undefined | Null => None
    case Obj(fields) => Some(fields)
    case _ => Some(map[])
  }

  /** Every element as a record, or `None` as soon as one element would throw. */
  function AsRecords(vs: seq<Value>): (r: Option<seq<Record>>)
    ensures r.None? <==> exists i | 0 <= i < |vs| :: Nullish(vs[i])
    ensures r.Some? ==> |r.value| == |vs| && forall i | 0 <= i < |vs| :: AsRecord(vs[i]) == Some(r.value[i])
  {
    if vs == [] then Some([])
    else
      match (AsRecord(vs[0]), AsRecords(vs[1..]))
      case (Some(head), Some(tail)) =>
        var r := Some([head] + tail);
        assert forall i | 1 <= i < |vs| :: vs[i] == vs[1..][i - 1];
        r
      case (None, _) => None
      case (_, None) =>
        assert forall i | 0 <= i < |vs| - 1 :: vs[1..][i] == vs[i + 1];
        None
  }

  /** JavaScript's white space and line terminators, the characters `trim()`
      and `Number()` strip from both ends. */
  predicate IsJsSpace(c: char) {
    c == ' ' || c == '\t' || c == '\n' || c == '\r' || c == '\U{000B}' || c == '\U{000C}'
    || c == '\U{00A0}' || c == '\U{1680}' || ('\U{2000}' <= c <= '\U{200A}')
    || c == '\U{2028}' || c == '\U{2029}' || c == '\U{202F}' || c == '\U{205F}'
    || c == '\U{3000}' || c == '\U{FEFF}'
  }

  function TrimStart(s: string): (r: string)
    ensures |r| <= |s| && r == s[|s| - |r|..]
    ensures r == [] || !IsJsSpace(r[0])
    ensures forall i | 0 <= i < |s| - |r| :: IsJsSpace(s[i])
  {
    if s != [] && IsJsSpace(s[0]) then TrimStart(s[1..]) else s
  }

  function TrimEnd(s: string): (r: string)
    ensures |r| <= |s| && r == s[..|r|]
    ensures r == [] || !IsJsSpace(r[|r| - 1])
    ensures forall i | |r| <= i < |s| :: IsJsSpace(s[i])
  {
    if s != [] && IsJsSpace(s[|s| - 1]) then TrimEnd(s[..|s| - 1]) else s
  }

  /** Where `TrimStart` cuts `s`: the number of leading white-space characters. */
  function TrimOffset(s: string): (i: nat)
    ensures i <= |s|
  {
    |s| - |TrimStart(s)|
  }

  /** `s.trim()`: the contiguous middle part of `s` left after removing the
      white space at both ends; what is removed is white space, and the
      result neither starts nor ends with white space. */
  function Trim(s: string): (r: string)
    ensures TrimOffset(s) + |r| <= |s| && r == s[TrimOffset(s)..TrimOffset(s) + |r|]
    ensures forall j | 0 <= j < TrimOffset(s) :: IsJsSpace(s[j])
    ensures forall j | TrimOffset(s) + |r| <= j < |s| :: IsJsSpace(s[j])
    ensures r == [] || (!IsJsSpace(r[0]) && !IsJsSpace(r[|r| - 1]))
  {
    TrimEnd(TrimStart(s))
  }

  /** The number text `Number(s)` reads after trimming: digits with an
      optional fraction (`"12"`, `"12.5"`, `".5"`, `"5."`), at least one digit. */
  function DecimalValue(body: string): (r: Option<real>)
    ensures r.Some? ==> r.value >= 0.0
  {
    var dot := DotIndex(body);
    var whole := body[..dot];
    var frac := if dot < |body| then body[dot + 1..] else [];
    if AllDigits(whole) && AllDigits(frac) && |whole| + |frac| > 0 then
      Some((ParseNat(whole) as real) + (ParseNat(frac) as real) / (Pow10(|frac|) as real))
    else None
  }

  function DotIndex(s: string): (k: nat)
    ensures k <= |s| && (k < |s| ==> s[k] == '.')
    ensures forall j | 0 <= j < k :: s[j] != '.'
  {
    if s == [] then 0 else if s[0] == '.' then 0 else 1 + DotIndex(s[1..])
  }

  /** `Number(s)` for a string: blank text is 0, an optionally signed decimal
      is its value, anything else is `NaN`. Only the trimmed text matters. */
  function StringToNumber(s: string): (v: Value)
    ensures v.Num? || v.NaN?
  {
    NumberText(Trim(s))
  }

  /** The value of already trimmed number text. */
  function NumberText(t: string): (v: Value)
    ensures v.Num? || v.NaN?
  {
    if t == [] then Num(0.0)
    else
      var negative := t[0] == '-';
      var body := if t[0] == '-' || t[0] == '+' then t[1..] else t;
      match DecimalValue(body)
      case Some(x) => Num(if negative then -x else x)
      case None => NaN
  }

  /** Text that neither starts nor ends with white space is its own trim. */
  lemma TrimUntouched(s: string)
    requires s != [] && !IsJsSpace(s[0]) && !IsJsSpace(s[|s| - 1])
    ensures Trim(s) == s
  {
  }

  /** Trimming stops at the first character that is not white space, so what
      follows it is kept whole. */
  lemma {:induction false} TrimStartAppend(s: string, t: string)
    ensures TrimStart(s + t) == if TrimStart(s) == [] then TrimStart(t) else TrimStart(s) + t
  {
    if s == [] {
      assert s + t == t;
    } else {
      assert (s + t)[0] == s[0];
      assert (s + t)[1..] == s[1..] + t;
      if IsJsSpace(s[0]) {
        TrimStartAppend(s[1..], t);
      }
    }
  }

  lemma TrimLeadingSpace(c: char, s: string)
    requires IsJsSpace(c)
    ensures Trim([c] + s) == Trim(s)
  {
    assert ([c] + s)[1..] == s;
    assert TrimStart([c] + s) == TrimStart(s);
  }

  lemma TrimTrailingSpace(s: string, c: char)
    requires IsJsSpace(c)
    ensures Trim(s + [c]) == Trim(s)
  {
    TrimStartAppend(s, [c]);
    var t := TrimStart(s);
    if t == [] {
      assert [c][1..] == [];
      assert TrimStart([c]) == [];
    } else {
      assert (t + [c])[..|t + [c]| - 1] == t;
      assert TrimEnd(t + [c]) == TrimEnd(t);
    }
  }

  /** `Number(s)` reads only the trimmed text. */
  lemma SameTrimSameNumber(s: string, t: string)
    requires Trim(s) == Trim(t)
    ensures StringToNumber(s) == StringToNumber(t)
  {
  }

  /** `Number(s)` ignores white space in front of the number. */
  lemma LeadingSpaceIgnored(c: char, s: string)
    requires IsJsSpace(c)
    ensures StringToNumber([c] + s) == StringToNumber(s)
  {
    TrimLeadingSpace(c, s);
    SameTrimSameNumber([c] + s, s);
  }

  /** `Number(s)` ignores white space after the number. */
  lemma TrailingSpaceIgnored(s: string, c: char)
    requires IsJsSpace(c)
    ensures StringToNumber(s + [c]) == StringToNumber(s)
  {
    TrimTrailingSpace(s, c);
    SameTrimSameNumber(s + [c], s);
  }

  /** Every character of unsigned decimal text is a digit or the point. */
  lemma DecimalChars(body: string)
    requires DecimalValue(body).Some?
    ensures body != []
    ensures forall i | 0 <= i < |body| :: IsDigit(body[i]) || body[i] == '.'
  {
    var dot := DotIndex(body);
    var frac := if dot < |body| then body[dot + 1..] else [];
    forall i | 0 <= i < |body|
      ensures IsDigit(body[i]) || body[i] == '.'
    {
      if i < dot {
        assert body[i] == body[..dot][i];
      } else if i > dot {
        assert body[i] == frac[i - dot - 1];
      }
    }
  }

  lemma UnsignedText(body: string)
    requires body != [] && Trim(body) == body && body[0] != '-' && body[0] != '+'
    requires DecimalValue(body).Some?
    ensures StringToNumber(body) == Num(DecimalValue(body).value)
  {
  }

  lemma NegatedText(body: string)
    requires Trim("-" + body) == "-" + body && DecimalValue(body).Some?
    ensures StringToNumber("-" + body) == Num(-DecimalValue(body).value)
  {
    assert ("-" + body)[1..] == body;
  }

  /** Unsigned decimal text reads as its value, and with a leading `-` as
      the negated value. */
  lemma SignedDecimal(body: string)
    requires DecimalValue(body).Some?
    ensures StringToNumber(body) == Num(DecimalValue(body).value)
    ensures StringToNumber("-" + body) == Num(-DecimalValue(body).value)
  {
    DecimalChars(body);
    TrimUntouched(body);
    UnsignedText(body);
    var neg := "-" + body;
    assert neg[|neg| - 1] == body[|body| - 1];
    TrimUntouched(neg);
    NegatedText(body);
  }

  /** Digits without a point read as the whole number they spell. */
  lemma WholeDecimal(s: string)
    requires s != [] && AllDigits(s)
    ensures DecimalValue(s) == Some(ParseNat(s) as real)
  {
    var dot := DotIndex(s);
    assert forall j | 0 <= j < |s| :: s[j] != '.';
    assert s[..dot] == s;
    assert ParseNat([]) == 0 && Pow10(0) == 1;
  }

  /** The text `String(n)` writes for a whole number reads back as that number. */
  lemma NumberOfNatText(n: nat)
    ensures StringToNumber(NatToString(n)) == Num(n as real)
  {
    var s := NatToString(n);
    ParseNatToString(n);
    WholeDecimal(s);
    SignedDecimal(s);
  }

  /** `Number(v)`. */
  function ToNumber(v: Value): (n: Value)
    ensures n.Num? || n.NaN?
    ensures v.Num? ==> n == v
    ensures Nullish(v) ==> (n.NaN? <==> v.Undefined?)
    ensures v.Bool? ==> n == Num(if v.b then 1.0 else 0.0)
    ensures v.Str? ==> n == StringToNumber(v.s)
  {
    match v
    case Undefined => NaN
    case Null => Num(0.0)
    case Bool(b) => Num(if b then 1.0 else 0.0)
    case Num(_) => v
    case NaN => NaN
    case Str(s) => StringToNumber(s)
    case Arr(items) =>
      // An array converts through its text: `[]` is "", `[x]` is `String(x)`,
      // and two or more elements always give a comma, hence `NaN`.
      if |items| == 0 then Num(0.0)
      else if |items| > 1 then NaN
      else
        (match items[0]
         case Undefined | Null => Num(0.0)
         case Bool(_) | NaN | Obj(_) => NaN
         case _ => ToNumber(items[0]))
    case Obj(_) => NaN
  }

  /** `Number(v) || 0` read as a number: `NaN` becomes 0. */
  function NumberOrZero(v: Value): (x: real)
    ensures ToNumber(v) == Num(x) || (ToNumber(v).NaN? && x == 0.0)
  {
    match ToNumber(v)
    case Num(x) => x
    case _ => 0.0
  }

  /** `String(v)`. */
  function JsString(v: Value, fmt: NumberFormat): string
    decreases v, 1
  {
    match v
    case Undefined => "undefined"
    case Null => "null"
    case Bool(b) => if b then "true" else "false"
    case Num(x) => fmt(x)
    case NaN => "NaN"
    case Str(s) => s
    case Arr(items) => JoinFrom(items, 0, fmt)
    case Obj(_) => "[object Object]"
  }

  /** `items.slice(i).join(",")`, where `null` and `undefined` elements are written as "". */
  function JoinFrom(items: seq<Value>, i: nat, fmt: NumberFormat): string
    requires i <= |items|
    decreases Arr(items), 0, |items| - i
  {
    if i == |items| then ""
    else
      var first := if Nullish(items[i]) then "" else JsString(items[i], fmt);
      if i + 1 == |items| then first else first + "," + JoinFrom(items, i + 1, fmt)
  }

  /** The truthy values are exactly those `||` keeps. */
  lemma {:induction false} FirstTruthyTruthy(aliases: seq<Value>, default: Value)
    ensures Truthy(FirstTruthy(aliases, default))
        <==> Truthy(default) || exists i | 0 <= i < |aliases| :: Truthy(aliases[i])
  {
    var k := FirstTruthyIndex(aliases);
    if k == |aliases| {
      assert forall i | 0 <= i < |aliases| :: !Truthy(aliases[i]);
    }
  }

  /** `s.findIndex(e => key(e) === x)`, with `|s|` standing for "not found". */
  function FindIndex<T>(s: seq<T>, key: T -> string, x: string): (k: nat)
    ensures k <= |s|
    ensures k < |s| ==> key(s[k]) == x
    ensures forall j | 0 <= j < k :: key(s[j]) != x
  {
    if s == [] then 0
    else if key(s[0]) == x then 0
    else 1 + FindIndex(s[1..], key, x)
  }
  /** `s` without its first element whose key is `x`; `s` itself when none is. */
  function RemoveFirst<T>(s: seq<T>, key: T -> string, x: string): (r: seq<T>)
    ensures var k := FindIndex(s, key, x);
      if k < |s| then
        |r| == |s| - 1 && multiset(r) + multiset{s[k]} == multiset(s)
        && forall i | 0 <= i < |r| :: r[i] == s[if i < k then i else i + 1]
      else r == s
  {
    var k := FindIndex(s, key, x);
    if k < |s| then
      assert s == s[..k] + [s[k]] + s[k + 1..];
      s[..k] + s[k + 1..]
    else s
  }

}
