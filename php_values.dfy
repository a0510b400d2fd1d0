/**
 * The PHP values the helpers and the request middleware pass around, and
 * the PHP conversions they rely on: truthiness, `??`, and the string and
 * integer casts.
 */
module PhpValues {
  import opened Wrappers

  /**
   * A PHP value. Array keys are kept in their string form (PHP turns a
   * decimal string key into the same integer key, so the two coincide).
   */
  datatype Value =
    | Null
    | Bool(b: bool)
    | Int(i: int)
    | Str(s: string)
    | Arr(entries: seq<(string, Value)>)

  /** `$s ? … : …` on a string: only the empty string and "0" are false. */
  predicate TruthyString(s: string) {
    s != "" && s != "0"
  }

  /** `$args[$i] ?? …`: the argument when it is present and not null. */
  function Coalesce(args: seq<Value>, i: nat): (r: Option<Value>)
    ensures r.Some? <==> i < |args| && args[i] != Null
    ensures r.Some? ==> r.value == args[i]
  {
    if i < |args| && args[i] != Null then Some(args[i]) else None
  }

  function DigitChar(d: nat): char
    requires d < 10
  {
    ('0' as int + d) as char
  }

  /** The decimal form of a natural number. */
  function NatToString(n: nat): (s: string)
    ensures |s| >= 1
    ensures forall i :: 0 <= i < |s| ==> '0' <= s[i] <= '9'
    decreases n
  {
    if n < 10 then [DigitChar(n)] else NatToString(n / 10) + [DigitChar(n % 10)]
  }

  /** The value of a string of decimal digits. */
  function DigitsValue(s: string): nat
    requires forall i :: 0 <= i < |s| ==> '0' <= s[i] <= '9'
  {
    if s == [] then 0
    else DigitsValue(s[..|s| - 1]) * 10 + (s[|s| - 1] as int - '0' as int)
  }

  /** Reading back the decimal form of a number gives the number. */
  lemma {:induction false} NatToStringValue(n: nat)
    ensures DigitsValue(NatToString(n)) == n
    decreases n
  {
    if n >= 10 {
      var s := NatToString(n);
      assert s[..|s| - 1] == NatToString(n / 10);
      NatToStringValue(n / 10);
    }
  }

  /** `(string) $i` for an integer. */
  function IntToString(i: int): string {
    if i < 0 then "-" + NatToString(-i) else NatToString(i)
  }

  /** The longest run of decimal digits at the start of `s`. */
  function LeadingDigits(s: string): (d: string)
    ensures |d| <= |s| && d == s[..|d|]
    ensures forall i :: 0 <= i < |d| ==> '0' <= d[i] <= '9'
    ensures |d| < |s| ==> !('0' <= s[|d|] <= '9')
  {
    if s != [] && '0' <= s[0] <= '9' then [s[0]] + LeadingDigits(s[1..]) else []
  }

  /** `(string) $v` */
  function CastString(v: Value): string {
    match v
    case Null => ""
    case Bool(b) => if b then "1" else ""
    case Int(i) => IntToString(i)
    case Str(s) => s
    case Arr(_) => "Array"
  }

  /** `(int) $v`; a string is read up to its first non-digit after an optional sign. */
  function CastInt(v: Value): int {
    match v
    case Null => 0
    case Bool(b) => if b then 1 else 0
    case Int(i) => i
    case Str(s) =>
      if s != [] && s[0] == '-' then -(DigitsValue(LeadingDigits(s[1..])) as int)
      else if s != [] && s[0] == '+' then DigitsValue(LeadingDigits(s[1..]))
      else DigitsValue(LeadingDigits(s))
    case Arr(e) => if e == [] then 0 else 1
  }

  /** Casting an integer to a string and back gives the integer. */
  lemma CastIntString(i: int)
    ensures CastInt(Str(CastString(Int(i)))) == i
  {
    if i < 0 {
      CastNegative(i);
    } else {
      CastNonNegative(i);
    }
  }

  lemma CastNegative(i: int)
    requires i < 0
    ensures CastInt(Str(CastString(Int(i)))) == i
  {
    var d := NatToString(-i);
    NatToStringValue(-i);
    LeadingAllDigits(d);
    var s := "-" + d;
    assert CastString(Int(i)) == s;
    assert s[1..] == d;
  }

  lemma CastNonNegative(i: int)
    requires i >= 0
    ensures CastInt(Str(CastString(Int(i)))) == i
  {
    var d := NatToString(i);
    NatToStringValue(i);
    LeadingAllDigits(d);
    assert CastString(Int(i)) == d;
    assert '0' <= d[0] <= '9';
  }

  lemma {:induction false} LeadingAllDigits(s: string)
    requires forall i :: 0 <= i < |s| ==> '0' <= s[i] <= '9'
    ensures LeadingDigits(s) == s
  {
    if s != [] {
      LeadingAllDigits(s[1..]);
    }
  }
}
