/**
 * PHP's loosely typed values as the plugin meets them in plugin definitions,
 * configuration and decoded carrier replies, with the casts and tests the
 * plugin applies to them: `empty()`, `(int)`, `(float)`, `is_numeric()` and
 * string interpolation.
 */
module PhpValues {
  import opened Wrappers
  import opened OrderedMaps

  /** A PHP value; floats are exact reals, arrays have string keys. */
  datatype Value =
    | Null
    | Bool(b: bool)
    | Int(i: int)
    | Float(r: real)
    | Str(s: string)
    | Arr(items: seq<(string, Value)>)

  /** `empty($v)`. */
  predicate Empty(v: Value)
  {
    match v
    case Null => true
    case Bool(b) => !b
    case Int(i) => i == 0
    case Float(r) => r == 0.0
    case Str(s) => s == "" || s == "0"
    case Arr(items) => items == []
  }

  /** `$a[$k]` on an array value; reading a missing key or indexing a non-array gives NULL. */
  function Field(v: Value, k: string): (r: Value)
    ensures !v.Arr? ==> r == Null
    ensures v.Arr? && !HasKey(v.items, k) ==> r == Null
    ensures v.Arr? && HasKey(v.items, k) ==> (k, r) in v.items
  {
    if v.Arr? then
      match Get(v.items, k)
      case Some(x) => x
      case None => Null
    else Null
  }

  // ---- decimal digits ----

  predicate IsDigit(c: char) { '0' <= c <= '9' }

  function DigitValue(c: char): (d: nat)
    requires IsDigit(c)
    ensures d < 10
  {
    (c as int - '0' as int) as nat
  }

  function DigitChar(d: nat): (c: char)
    requires d < 10
    ensures IsDigit(c) && DigitValue(c) == d
  {
    ('0' as int + d) as char
  }

  predicate AllDigits(s: string) { forall i :: 0 <= i < |s| ==> IsDigit(s[i]) }

  /** The number a run of digits spells, most significant digit first. */
  function DigitsValue(s: string): (n: nat)
    requires AllDigits(s)
  {
    if s == [] then 0 else DigitsValue(s[..|s| - 1]) * 10 + DigitValue(s[|s| - 1])
  }

  /** Length of the run of digits at the start of `s`. */
  function DigitRun(s: string): (k: nat)
    ensures k <= |s| && AllDigits(s[..k])
    ensures k < |s| ==> !IsDigit(s[k])
  {
    if s == [] || !IsDigit(s[0]) then 0
    else
      var k := 1 + DigitRun(s[1..]);
      assert s[..k] == [s[0]] + s[1..][..k - 1];
      k
  }

  lemma {:induction false} DigitRunOfDigits(s: string)
    requires AllDigits(s)
    ensures DigitRun(s) == |s|
  {
    if s != [] { DigitRunOfDigits(s[1..]); }
  }

  /** The decimal rendering of a natural number, without leading zeros. */
  function NatToString(n: nat): (s: string)
    ensures |s| >= 1 && AllDigits(s)
    ensures n >= 10 ==> s[0] != '0'
    decreases n
  {
    if n < 10 then [DigitChar(n)] else NatToString(n / 10) + [DigitChar(n % 10)]
  }

  lemma {:induction false} NatToStringValue(n: nat)
    ensures DigitsValue(NatToString(n)) == n
    decreases n
  {
    var s := NatToString(n);
    if n >= 10 {
      NatToStringValue(n / 10);
      assert s[..|s| - 1] == NatToString(n / 10);
    }
  }

  /** PHP's rendering of an integer in a string. */
  function IntToString(i: int): (s: string)
    ensures |s| >= 1
  {
    if i < 0 then "-" + NatToString(-i) else NatToString(i)
  }

  // ---- casts ----

  /** The whitespace `(int)` skips before the number: space, tab, line feed, vertical tab, form feed, return. */
  predicate IsSpace(c: char) { c == ' ' || c == '\t' || c == '\n' || c == '\U{000B}' || c == '\U{000C}' || c == '\r' }

  /** How many whitespace characters `s` starts with. */
  function LeadingSpace(s: string): (k: nat)
    ensures k <= |s|
    ensures forall i :: 0 <= i < k ==> IsSpace(s[i])
    ensures k < |s| ==> !IsSpace(s[k])
  {
    if |s| > 0 && IsSpace(s[0]) then 1 + LeadingSpace(s[1..]) else 0
  }

  /**
   * The sign and digits at the start of `s` after its leading whitespace,
   * as `(int)` reads them: `(int) " 2000"` is 2000.
   */
  function IntCast(s: string): (n: int)
    ensures AllDigits(s) ==> n == DigitsValue(s)
  {
    assert AllDigits(s) && |s| > 0 ==> !IsSpace(s[0]);
    SignedCast(s[LeadingSpace(s)..])
  }

  /** A string that does not start with whitespace is read from its first character. */
  lemma IntCastUnspaced(s: string)
    requires |s| == 0 || !IsSpace(s[0])
    ensures IntCast(s) == SignedCast(s)
  {
    assert LeadingSpace(s) == 0;
  }

  /** Whitespace in front of a string does not change what `(int)` reads from it. */
  lemma IntCastSkipsSpace(t: string, s: string)
    requires forall i :: 0 <= i < |t| ==> IsSpace(t[i])
    ensures IntCast(t + s) == IntCast(s)
  {
    var u, k := t + s, LeadingSpace(s);
    LeadingSpaceAppend(t, s);
    DropAfterPrefix(t, s, k);
    assert u[LeadingSpace(u)..] == s[k..];
  }

  /** Dropping a prefix and then `k` more characters leaves the rest of the suffix. */
  lemma DropAfterPrefix(t: string, s: string, k: nat)
    requires k <= |s|
    ensures (t + s)[|t| + k..] == s[k..]
  {
    assert (t + s)[|t|..] == s;
    assert (t + s)[|t| + k..] == (t + s)[|t|..][k..];
  }

  lemma {:induction false} LeadingSpaceAppend(t: string, s: string)
    requires forall i :: 0 <= i < |t| ==> IsSpace(t[i])
    ensures LeadingSpace(t + s) == |t| + LeadingSpace(s)
    decreases |t|
  {
    if t == [] {
      assert t + s == s;
    } else {
      assert (t + s)[0] == t[0] && IsSpace(t[0]);
      assert (t + s)[1..] == t[1..] + s;
      LeadingSpaceAppend(t[1..], s);
    }
  }

  /** The sign and digits at the very start of `s`. */
  function SignedCast(s: string): (n: int)
    ensures AllDigits(s) ==> n == DigitsValue(s)
  {
    if |s| > 0 && (s[0] == '-' || s[0] == '+') then
      var m: int := DigitsValue(s[1..][..DigitRun(s[1..])]);
      if s[0] == '-' then -m else m
    else
      var k := DigitRun(s);
      assert AllDigits(s) ==> s[..k] == s by {
        if AllDigits(s) { DigitRunOfDigits(s); }
      }
      DigitsValue(s[..k])
  }

  lemma {:induction false} IntCastOfIntToString(i: int)
    ensures IntCast(IntToString(i)) == i
  {
    IntCastUnspaced(IntToString(i));
    var t := NatToString(if i < 0 then -i else i);
    NatToStringValue(if i < 0 then -i else i);
    if i < 0 {
      assert IntToString(i)[1..] == t;
      DigitRunOfDigits(t);
      assert t[..DigitRun(t)] == t;
    }
  }

  /** `(int)` of a string of digits ignores leading zeros: `(int) "0800"` is 800. */
  lemma {:induction false} LeadingZerosIgnored(s: string)
    requires AllDigits(s)
    ensures AllDigits("0" + s) && DigitsValue("0" + s) == DigitsValue(s)
    decreases |s|
  {
    if s != [] {
      var z := "0" + s;
      assert z[..|z| - 1] == "0" + s[..|s| - 1];
      LeadingZerosIgnored(s[..|s| - 1]);
    }
  }

  function Pow10(k: nat): (p: nat)
    ensures p >= 1
  {
    if k == 0 then 1 else 10 * Pow10(k - 1)
  }

  /**
   * The unsigned decimal at the start of `s`: digits, then optionally a point
   * and more digits. Gives its value and how many characters it spans.
   */
  function UnsignedDecimal(s: string): (r: (real, nat))
    ensures r.1 <= |s|
    ensures r.0 >= 0.0
  {
    var k := DigitRun(s);
    var whole := DigitsValue(s[..k]) as real;
    if k < |s| && s[k] == '.' then
      var rest := s[k + 1..];
      var f := DigitRun(rest);
      (whole + DigitsValue(rest[..f]) as real / Pow10(f) as real, k + 1 + f)
    else (whole, k)
  }

  /** `(float) $s`: the leading decimal of `s`, 0 when there is none. */
  function FloatCast(s: string): real
  {
    if |s| > 0 && (s[0] == '-' || s[0] == '+') then
      var m := UnsignedDecimal(s[1..]).0;
      if s[0] == '-' then -m else m
    else UnsignedDecimal(s).0
  }

  /** `is_numeric($s)`: the whole string is a signed decimal with at least one digit. */
  predicate IsNumericString(s: string)
  {
    var body := if |s| > 0 && (s[0] == '-' || s[0] == '+') then s[1..] else s;
    UnsignedDecimal(body).1 == |body| && exists i :: 0 <= i < |body| && IsDigit(body[i])
  }

  lemma {:induction false} FloatCastOfDigits(s: string)
    requires AllDigits(s) && |s| > 0
    ensures IsNumericString(s) && FloatCast(s) == DigitsValue(s) as real
  {
    DigitRunOfDigits(s);
    assert s[..DigitRun(s)] == s;
    assert IsDigit(s[0]);
  }

  /** The number a PHP value stands for, when it is an integer, float or numeric string. */
  function NumberOf(v: Value): (r: Option<real>)
    ensures v.Int? ==> r == Some(v.i as real)
    ensures v.Float? ==> r == Some(v.r)
    ensures r.Some? ==> v.Int? || v.Float? || (v.Str? && IsNumericString(v.s))
  {
    match v
    case Int(i) => Some(i as real)
    case Float(r) => Some(r)
    case Str(s) => if IsNumericString(s) then Some(FloatCast(s)) else None
    case _ => None
  }

  /** `(float) $v`. */
  function ToFloat(v: Value): (r: real)
    ensures v.Int? ==> r == v.i as real
    ensures v.Float? ==> r == v.r
    ensures v.Null? ==> r == 0.0
  {
    match v
    case Null => 0.0
    case Bool(b) => if b then 1.0 else 0.0
    case Int(i) => i as real
    case Float(r) => r
    case Str(s) => FloatCast(s)
    case Arr(items) => if items == [] then 0.0 else 1.0
  }

  /** `(int) $v`; a float is truncated toward zero. */
  function ToInt(v: Value): (r: int)
    ensures v.Int? ==> r == v.i
    ensures v.Null? ==> r == 0
  {
    match v
    case Null => 0
    case Bool(b) => if b then 1 else 0
    case Int(i) => i
    case Float(r) => if r >= 0.0 then r.Floor else -((-r).Floor)
    case Str(s) => IntCast(s)
    case Arr(items) => if items == [] then 0 else 1
  }

  /** `"{$v}"`: how a value reads inside a double-quoted string. */
  function Interpolate(v: Value): (s: string)
    ensures v.Str? ==> s == v.s
    ensures v.Null? ==> s == ""
  {
    match v
    case Null => ""
    case Bool(b) => if b then "1" else ""
    case Int(i) => IntToString(i)
    case Float(r) => IntToString(if r >= 0.0 then r.Floor else -((-r).Floor))
    case Str(s) => s
    case Arr(_) => "Array"
  }

  /** `in_array($needle, $haystack, TRUE)`: some entry's value is identical to `needle`. */
  predicate InArrayStrict(needle: Value, haystack: seq<(string, Value)>)
  {
    exists i :: 0 <= i < |haystack| && haystack[i].1 == needle
  }

  // ---- strings ----

  /** `strpos($s, $prefix) === 0`. */
  predicate StartsWith(s: string, prefix: string)
  {
    |prefix| <= |s| && s[..|prefix|] == prefix
  }

  /** `strpos($s, $c)` for a single character: its first position, if any. */
  function FirstIndexOf(s: string, c: char): (r: Option<nat>)
    ensures r.None? <==> c !in s
    ensures r.Some? ==> r.value < |s| && s[r.value] == c && c !in s[..r.value]
    decreases |s|
  {
    if s == [] then None
    else if s[0] == c then Some(0)
    else match FirstIndexOf(s[1..], c)
      case None => None
      case Some(i) =>
        assert s[..i + 1] == [s[0]] + s[1..][..i];
        Some(i + 1)
  }
}
