/**
 * The JavaScript values and built-in operations the adapters rely on.
 *
 * A plain object is a finite map from its own keys to their values; a key that is
 * present with the value `undefined` is kept apart from a missing key, because object
 * spread (`{...a, ...b}`, which is `a + b` here) copies such a key and so lets it hide
 * an earlier value.
 */
module Js {

  datatype Value =
    | Undefined
    | Null
    | Bool(b: bool)
    | Num(n: real)
    | Str(s: string)
    | Arr(items: seq<Value>)
    | Obj(fields: map<string, Value>)

  type Object = map<string, Value>

  /** `o.key`: a missing key reads as `undefined`. */
  function Get(o: Object, key: string): Value {
    if key in o then o[key] else Undefined
  }

  /** `o.key !== undefined` */
  predicate Defined(o: Object, key: string) {
    key in o && !o[key].Undefined?
  }

  /** The test `||`, `&&` and `if` apply (NaN is not modelled). */
  predicate Truthy(v: Value) {
    match v
    case Undefined => false
    case Null => false
    case Bool(b) => b
    case Num(n) => n != 0.0
    case Str(s) => s != ""
    case Arr(_) => true
    case Obj(_) => true
  }

  /** The test `??` applies. */
  predicate Nullish(v: Value) {
    v.Undefined? || v.Null?
  }

  /** `v && v.length > 0` for the values that have a length. */
  predicate NonEmptyLength(v: Value) {
    (v.Arr? && |v.items| > 0) || (v.Str? && |v.s| > 0)
  }

  /** An optional field declared as `string`: absent, null, undefined or a string. */
  predicate OptionalString(o: Object, key: string) {
    key !in o || Nullish(o[key]) || o[key].Str?
  }

  /** An optional field declared as `boolean`. */
  predicate OptionalBool(o: Object, key: string) {
    key !in o || Nullish(o[key]) || o[key].Bool?
  }

  /** An optional field declared as `number` and holding a whole number. */
  predicate OptionalInteger(o: Object, key: string) {
    key !in o || Nullish(o[key]) || (o[key].Num? && o[key].n.Floor as real == o[key].n)
  }

  /** `o.key || default` for an optional string field. */
  function StringOr(o: Object, key: string, default: string): (r: string)
    requires OptionalString(o, key)
    ensures Truthy(Get(o, key)) ==> Get(o, key) == Str(r)
    ensures !Truthy(Get(o, key)) ==> r == default
  {
    if key in o && o[key].Str? && o[key].s != "" then o[key].s else default
  }

  /** `o.key ?? default` for an optional boolean field. */
  function BoolOr(o: Object, key: string, default: bool): (r: bool)
    requires OptionalBool(o, key)
    ensures Nullish(Get(o, key)) ==> r == default
    ensures !Nullish(Get(o, key)) ==> Get(o, key) == Bool(r)
  {
    if key in o && o[key].Bool? then o[key].b else default
  }

  /** `o.key ?? default` for an optional whole-number field. */
  function IntegerOr(o: Object, key: string, default: int): (r: int)
    requires OptionalInteger(o, key)
    ensures Nullish(Get(o, key)) ==> r == default
    ensures !Nullish(Get(o, key)) ==> Get(o, key) == Num(r as real)
  {
    if key in o && o[key].Num? then o[key].n.Floor else default
  }

  /** The characters `String.prototype.trim` removes: white space and line terminators. */
  predicate IsWhitespace(c: char) {
    || c == '\t' || c == '\n' || c == '\U{B}' || c == '\U{C}' || c == '\r' || c == ' '
    || c == '\U{A0}' || c == '\U{1680}' || ('\U{2000}' <= c <= '\U{200A}')
    || c == '\U{2028}' || c == '\U{2029}' || c == '\U{202F}' || c == '\U{205F}'
    || c == '\U{3000}' || c == '\U{FEFF}'
  }

  function TrimStart(s: string): string {
    if |s| > 0 && IsWhitespace(s[0]) then TrimStart(s[1..]) else s
  }

  function TrimEnd(s: string): string {
    if |s| > 0 && IsWhitespace(s[|s| - 1]) then TrimEnd(s[..|s| - 1]) else s
  }

  /** `s.trim()` */
  function Trim(s: string): string {
    TrimEnd(TrimStart(s))
  }

  /** `s.startsWith(prefix)` */
  predicate StartsWith(s: string, prefix: string) {
    |prefix| <= |s| && s[..|prefix|] == prefix
  }

  /** The strings concatenated in order, as `+=` in a loop builds them. */
  function Join(parts: seq<string>): string {
    if parts == [] then "" else parts[0] + Join(parts[1..])
  }

  /** Concatenation is associative. */
  lemma Associate<T>(a: seq<T>, b: seq<T>, c: seq<T>)
    ensures a + (b + c) == a + b + c
  {
  }

  lemma {:induction false} JoinAppend(a: seq<string>, b: seq<string>)
    ensures Join(a + b) == Join(a) + Join(b)
    decreases |a|
  {
    if a == [] {
      assert a + b == b;
    } else {
      assert (a + b)[1..] == a[1..] + b;
      JoinAppend(a[1..], b);
    }
  }

  /** Decimal digits of a whole number, as a template literal prints it. */
  function NatToDecimal(n: nat): (r: string)
    ensures |r| > 0
    decreases n
  {
    if n < 10 then ["0123456789"[n]] else NatToDecimal(n / 10) + ["0123456789"[n % 10]]
  }

  /** The number a string of decimal digits denotes. */
  function DigitsValue(s: string): nat
    requires forall c | c in s :: '0' <= c <= '9'
    decreases |s|
  {
    if s == [] then 0
    else
      var front := s[..|s| - 1];
      assert forall c | c in front :: c in s;
      assert s[|s| - 1] in s;
      DigitsValue(front) * 10 + (s[|s| - 1] as int - '0' as int)
  }

  /** The digits printed for `n` read back as `n`, with no leading zero. */
  lemma {:induction false} NatToDecimalValue(n: nat)
    ensures forall c | c in NatToDecimal(n) :: '0' <= c <= '9'
    ensures DigitsValue(NatToDecimal(n)) == n
    ensures NatToDecimal(n)[0] == '0' ==> n == 0
    decreases n
  {
    var r := NatToDecimal(n);
    if n >= 10 {
      NatToDecimalValue(n / 10);
      var last := "0123456789"[n % 10];
      assert r == NatToDecimal(n / 10) + [last];
      assert r[..|r| - 1] == NatToDecimal(n / 10);
      assert r[0] == NatToDecimal(n / 10)[0];
    } else {
      assert r[..0] == [];
    }
  }

  /** A negative number prints as "-" followed by the digits of its magnitude. */
  lemma IntToDecimalValue(i: int)
    ensures i < 0 ==> IntToDecimal(i)[0] == '-' && IntToDecimal(i)[1..] == NatToDecimal(-i)
    ensures i >= 0 ==> IntToDecimal(i) == NatToDecimal(i)
  {
  }

  function IntToDecimal(i: int): (r: string)
    ensures |r| > 0
  {
    if i < 0 then "-" + NatToDecimal(-i) else NatToDecimal(i)
  }
}
