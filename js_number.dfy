/**
 * JavaScript's `String(n)` for integers and `parseInt(s, 10)`: leading
 * white space is skipped, one sign is allowed, and the longest run of
 * decimal digits is read; no digit at all is `NaN`, modelled as `None`.
 */
module JsNumber {
  import opened Wrappers

  function DigitChar(d: nat): (c: char)
    requires d < 10
    ensures '0' <= c <= '9'
  {
    (('0' as int) + d) as char
  }

  /** `String(n)` for a non-negative integer: shortest decimal form. */
  function NatToString(n: nat): (s: string)
    ensures |s| > 0
    ensures forall i :: 0 <= i < |s| ==> '0' <= s[i] <= '9'
    ensures s[0] == '0' ==> n == 0
  {
    if n < 10 then [DigitChar(n)] else NatToString(n / 10) + [DigitChar(n % 10)]
  }

  /** `String(i)` for any integer. */
  function IntToString(i: int): (s: string)
    ensures |s| > 0
    ensures i < 0 ==> s[0] == '-'
    ensures i >= 0 ==> '0' <= s[0] <= '9'
  {
    if i < 0 then "-" + NatToString(-i) else NatToString(i)
  }

  /** JavaScript's white space and line terminators, which `parseInt` skips. */
  predicate IsSpace(c: char)
  {
    c == ' ' || c == '\t' || c == '\n' || c == '\r' || c == '\U{B}' || c == '\U{C}'
    || c == '\U{A0}' || c == '\U{1680}' || ('\U{2000}' <= c <= '\U{200A}')
    || c == '\U{2028}' || c == '\U{2029}' || c == '\U{202F}' || c == '\U{205F}'
    || c == '\U{3000}' || c == '\U{FEFF}'
  }

  /** Value of `c` as a digit in base `radix`, if it is one. */
  function DigitValue(c: char, radix: nat): (r: Option<nat>)
    ensures r.Some? ==> r.value < radix
  {
    var v :=
      if '0' <= c <= '9' then (c as int) - ('0' as int)
      else if 'a' <= c <= 'z' then (c as int) - ('a' as int) + 10
      else if 'A' <= c <= 'Z' then (c as int) - ('A' as int) + 10
      else 36;
    if 0 <= v < radix then Some(v as nat) else None
  }

  function SkipSpace(s: string): (r: string)
    ensures |r| <= |s| && r == s[|s| - |r|..]
    ensures r == [] || !IsSpace(r[0])
  {
    if s != [] && IsSpace(s[0]) then SkipSpace(s[1..]) else s
  }

  predicate IsDecimal(c: char)
  {
    '0' <= c <= '9'
  }

  /** Longest prefix of `s` made of decimal digits. */
  function DigitRun(s: string): (r: string)
    ensures |r| <= |s| && r == s[..|r|]
    ensures forall i :: 0 <= i < |r| ==> IsDecimal(r[i])
    ensures |r| < |s| ==> !IsDecimal(s[|r|])
  {
    if s != [] && IsDecimal(s[0]) then [s[0]] + DigitRun(s[1..]) else []
  }

  /** The number a run of decimal digits denotes. */
  function RunValue(ds: string): nat
    requires forall i :: 0 <= i < |ds| ==> IsDecimal(ds[i])
  {
    if ds == [] then 0
    else RunValue(ds[..|ds| - 1]) * 10 + LastDigit(ds)
  }

  function LastDigit(ds: string): (d: nat)
    requires ds != [] && IsDecimal(ds[|ds| - 1])
    ensures d < 10
  {
    (ds[|ds| - 1] as int) - ('0' as int)
  }

  /** `parseInt(s, 10)`; `None` stands for `NaN`. */
  function ParseInt(s: string): (r: Option<int>)
  {
    var t := SkipSpace(s);
    if t != [] && t[0] == '-' then
      match ParseDigits(t[1..])
      case None => None
      case Some(v) => Some(-(v as int))
    else if t != [] && t[0] == '+' then ParseDigits(t[1..])
    else ParseDigits(t)
  }

  function ParseDigits(body: string): (r: Option<nat>)
  {
    var ds := DigitRun(body);
    if ds == [] then None else Some(RunValue(ds))
  }

  lemma {:induction false} DecimalValue(n: nat)
    ensures DigitRun(NatToString(n)) == NatToString(n)
    ensures RunValue(NatToString(n)) == n
  {
    var s := NatToString(n);
    AllDigitsRun(s);
    if n < 10 {
      assert s[..0] == [];
    } else {
      var p := NatToString(n / 10);
      DecimalValue(n / 10);
      assert s == p + [DigitChar(n % 10)];
      assert s[..|s| - 1] == p;
      assert RunValue(s) == RunValue(p) * 10 + n % 10;
    }
  }

  lemma {:induction false} AllDigitsRun(s: string)
    requires forall i :: 0 <= i < |s| ==> IsDecimal(s[i])
    ensures DigitRun(s) == s
  {
    if s != [] {
      AllDigitsRun(s[1..]);
    }
  }

  /** `parseInt(String(i), 10) === i`: the round trip the panel id getter relies on. */
  lemma ParseIntOfIntToString(i: int)
    ensures ParseInt(IntToString(i)) == Some(i)
  {
    var s := IntToString(i);
    if i < 0 {
      var d := NatToString(-i);
      assert s == "-" + d;
      NoSpaceSkip(s);
      assert s[1..] == d;
      DigitsOfNatToString(-i);
    } else {
      assert s == NatToString(i);
      NoSpaceSkip(s);
      DigitsOfNatToString(i);
    }
  }

  lemma DigitsOfNatToString(m: nat)
    ensures ParseDigits(NatToString(m)) == Some(m)
  {
    DecimalValue(m);
  }

  lemma NoSpaceSkip(s: string)
    requires s != [] && (s[0] == '-' || IsDecimal(s[0]))
    ensures SkipSpace(s) == s
  {
  }

  /** A string with no digit after its optional sign parses to `NaN`; so does `0x1`'s tail after `0`. */
  lemma ParseIntNoDigits(s: string)
    requires s != [] && !IsSpace(s[0]) && s[0] != '-' && s[0] != '+' && !IsDecimal(s[0])
    ensures ParseInt(s) == None
  {
  }

  /** Reading stops at the first non-digit: `parseInt("0x1", 10)` is `0`. */
  lemma ParseIntStopsAtNonDigit(ds: string, rest: string)
    requires ds != [] && forall i :: 0 <= i < |ds| ==> IsDecimal(ds[i])
    requires rest == [] || !IsDecimal(rest[0])
    ensures ParseDigits(ds + rest) == Some(RunValue(ds))
  {
    DigitRunStops(ds, rest);
  }

  lemma {:induction false} DigitRunStops(ds: string, rest: string)
    requires forall i :: 0 <= i < |ds| ==> IsDecimal(ds[i])
    requires rest == [] || !IsDecimal(rest[0])
    ensures DigitRun(ds + rest) == ds
  {
    if ds != [] {
      assert (ds + rest)[1..] == ds[1..] + rest;
      DigitRunStops(ds[1..], rest);
    } else {
      assert ds + rest == rest;
    }
  }
}
