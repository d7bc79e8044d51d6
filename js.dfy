/** JavaScript values as the bridge sees them: the dynamic argument shapes of
    `connect`, `listen` and `new Socket`, the options objects they read, and
    the handful of conversions the source relies on (truthiness, `typeof`,
    `String(v)`, `parseInt`). */
module Js {

  datatype Option<T> = None | Some(value: T)

  newtype Byte = x: int | 0 <= x < 256

  /** The opaque replication-protocol stream (`Protocol({...})`). Only its
      identity and the options it was created with are modelled. */
  class ProtocolStream {
    const userData: Value
    const download: bool
    const upload: bool
    const live: bool

    constructor (userData: Value, download: bool, upload: bool, live: bool)
      ensures this.userData == userData && this.download == download
      ensures this.upload == upload && this.live == live
    {
      this.userData := userData;
      this.download := download;
      this.upload := upload;
      this.live := live;
    }
  }

  /** A JavaScript value. Numbers are integral (`Num`) or `NaN`; an object
      carries an identity `id` and its own enumerable properties; a function
      carries its identity and its source text (what `String(f)` yields). */
  datatype Value =
    | Undefined
    | Null
    | Bool(b: bool)
    | Num(n: int)
    | NaN
    | Str(s: string)
    | Func(id: nat, source: string)
    | Buffer(bytes: seq<Byte>)
    | Obj(id: nat, fields: map<string, Value>)
    | StreamRef(stream: ProtocolStream)

  /** `{}`: an object literal with no properties. */
  const EmptyObject: Value := Obj(0, map[])

  /** JavaScript truthiness: `if (v)`. */
  predicate Truthy(v: Value) {
    match v
    case Undefined => false
    case Null => false
    case Bool(b) => b
    case Num(n) => n != 0
    case NaN => false
    case Str(s) => s != ""
    case _ => true
  }

  /** What `typeof v` names. */
  datatype Type = UndefinedType | Object | Boolean | Number | String | Function

  /** `typeof v`. */
  function TypeOf(v: Value): Type {
    match v
    case Undefined => UndefinedType
    case Null => Object
    case Bool(_) => Boolean
    case Num(_) => Number
    case NaN => Number
    case Str(_) => String
    case Func(_, _) => Function
    case Buffer(_) => Object
    case Obj(_, _) => Object
    case StreamRef(_) => Object
  }

  /** `v || w` */
  function Or(v: Value, w: Value): (r: Value)
    ensures Truthy(v) ==> r == v
    ensures !Truthy(v) ==> r == w
  {
    if Truthy(v) then v else w
  }

  /** The own properties an options object contributes to `Object.assign`. */
  function Fields(v: Value): map<string, Value> {
    if v.Obj? then v.fields else map[]
  }

  /** `v.k` for the objects of the model; any other receiver has no
      modelled property. */
  function Get(v: Value, k: string): (r: Value)
    ensures r != Undefined ==> v.Obj? && k in v.fields
  {
    if v.Obj? && k in v.fields then v.fields[k] else Undefined
  }

  /** `'k' in v` */
  predicate Has(v: Value, k: string) {
    v.Obj? && k in v.fields
  }

  /** A value of a string-or-null property, as `url.parse` returns them. */
  function OrNull(s: Option<string>): (r: Value)
    ensures s.None? ==> r == Null
    ensures s.Some? ==> r == Str(s.value)
  {
    if s.Some? then Str(s.value) else Null
  }

  predicate IsDigit(c: char) {
    '0' <= c <= '9'
  }

  function DigitValue(c: char): (d: nat)
    requires IsDigit(c)
    ensures d < 10
  {
    (c as int) - ('0' as int)
  }

  function DigitChar(d: nat): (c: char)
    requires d < 10
    ensures IsDigit(c) && DigitValue(c) == d
  {
    (('0' as int) + d) as char
  }

  /** The decimal numeral of a natural number, as `${n}` writes it. */
  function DecimalString(n: nat): (s: string)
    decreases n
  {
    if n < 10 then [DigitChar(n)] else DecimalString(n / 10) + [DigitChar(n % 10)]
  }

  /** The longest prefix of `s` made of decimal digits. */
  function LeadingDigits(s: string): (r: string)
    ensures |r| <= |s| && r == s[..|r|]
    ensures forall i :: 0 <= i < |r| ==> IsDigit(r[i])
    ensures |r| < |s| ==> !IsDigit(s[|r|])
  {
    if s == [] || !IsDigit(s[0]) then [] else [s[0]] + LeadingDigits(s[1..])
  }

  /** The number a string of decimal digits denotes. */
  function DigitsValue(s: string): nat
    requires forall i :: 0 <= i < |s| ==> IsDigit(s[i])
  {
    if s == [] then 0 else DigitsValue(s[..|s| - 1]) * 10 + DigitValue(s[|s| - 1])
  }

  /** `parseInt(s)` on the strings the bridge passes it (port fields of
      parsed URLs, `window.location.port`): the value of the leading run of
      decimal digits, or `NaN` when there is none. */
  function ParseInt(s: string): (r: Value)
    ensures r.NaN? || r.Num?
    ensures r.NaN? <==> (s == [] || !IsDigit(s[0]))
    ensures r.Num? ==> r.n >= 0
  {
    var d := LeadingDigits(s);
    if d == [] then NaN else Num(DigitsValue(d))
  }

  /** `parseInt(p)` for a property that may be null (`parseInt(null)` is `NaN`). */
  function ParseIntOrNaN(p: Option<string>): (r: Value)
    ensures p.None? ==> r == NaN
    ensures p.Some? ==> r == ParseInt(p.value)
  {
    if p.Some? then ParseInt(p.value) else NaN
  }

  /** Bytes of a buffer read as text; only the ASCII range is modelled,
      every other byte reads as U+FFFD. */
  function AsciiText(b: seq<Byte>): (s: string)
    ensures |s| == |b|
  {
    if b == [] then "" else
      [if b[0] < 128 then (b[0] as int) as char else '\U{FFFD}'] + AsciiText(b[1..])
  }

  /** `String(v)`, as a template literal converts its substitutions. */
  function ToString(v: Value): string {
    match v
    case Undefined => "undefined"
    case Null => "null"
    case Bool(b) => if b then "true" else "false"
    case Num(n) => if n < 0 then "-" + DecimalString(-n) else DecimalString(n)
    case NaN => "NaN"
    case Str(s) => s
    case Func(_, src) => src
    case Buffer(bytes) => AsciiText(bytes)
    case Obj(_, _) => "[object Object]"
    case StreamRef(_) => "[object Object]"
  }

  lemma {:induction false} DecimalStringDigits(n: nat)
    ensures |DecimalString(n)| > 0
    ensures forall i :: 0 <= i < |DecimalString(n)| ==> IsDigit(DecimalString(n)[i])
    decreases n
  {
    if n >= 10 {
      DecimalStringDigits(n / 10);
    }
  }

  lemma {:induction false} AllDigitsLeading(s: string)
    requires forall i :: 0 <= i < |s| ==> IsDigit(s[i])
    ensures LeadingDigits(s) == s
  {
    if s != [] {
      AllDigitsLeading(s[1..]);
    }
  }

  /** `parseInt` reads back what `${n}` wrote: the two are inverse on the
      naturals. */
  lemma {:induction false} ParseIntDecimal(n: nat)
    ensures ParseInt(DecimalString(n)) == Num(n)
  {
    DecimalStringDigits(n);
    AllDigitsLeading(DecimalString(n));
    DigitsValueDecimal(n);
  }

  lemma {:induction false} DigitsValueDecimal(n: nat)
    ensures forall i :: 0 <= i < |DecimalString(n)| ==> IsDigit(DecimalString(n)[i])
    ensures DigitsValue(DecimalString(n)) == n
    decreases n
  {
    DecimalStringDigits(n);
    if n >= 10 {
      var s := DecimalString(n);
      var p := DecimalString(n / 10);
      assert s == p + [DigitChar(n % 10)];
      assert s[..|s| - 1] == p;
      DigitsValueDecimal(n / 10);
    }
  }
}
