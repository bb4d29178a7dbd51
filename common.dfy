/**
 * Shared vocabulary of the model: optional values, calendar and clock
 * values, decimal rendering of numbers and the few string operations the
 * modules use (ASCII lower-casing, whitespace trimming, prefix tests).
 */
module Common {

  datatype Option<T> = None | Some(value: T)

  /** A calendar date, as a day number (consecutive days differ by one). */
  type Day = int

  /** A point in time, in seconds (UTC). */
  type Instant = int

  const SecondsPerDay: int := 86400

  /**
   * `days_to_expire` of contracts and of legal documents: the days from
   * today to the end date, negative once it has passed, and 0 without one.
   */
  function DaysToExpire(end: Option<Day>, today: Day): (d: int)
    ensures end.None? ==> d == 0
    ensures end.Some? ==> today + d == end.value
  {
    if end.Some? then end.value - today else 0
  }

  /** The raw content of a binary field; empty stands for an unset field. */
  type Bytes = seq<bv8>

  // ---------------------------------------------------------------------
  // Decimal rendering (Python's str(int) and the ":04d" format)
  // ---------------------------------------------------------------------

  predicate IsDigit(c: char) { '0' <= c <= '9' }

  predicate AllDigits(s: string) { forall i :: 0 <= i < |s| ==> IsDigit(s[i]) }

  function DigitChar(d: int): (c: char)
    requires 0 <= d < 10
    ensures IsDigit(c) && c as int - '0' as int == d
  {
    ['0', '1', '2', '3', '4', '5', '6', '7', '8', '9'][d]
  }

  function DigitValue(c: char): (d: int)
    requires IsDigit(c)
    ensures 0 <= d < 10
  {
    c as int - '0' as int
  }

  /** The decimal digits of n, most significant first, without leading zeros. */
  function NatToString(n: nat): (s: string)
    ensures |s| >= 1 && AllDigits(s)
    ensures n < 10 <==> |s| == 1
    decreases n
  {
    if n < 10 then [DigitChar(n)] else NatToString(n / 10) + [DigitChar(n % 10)]
  }

  /** The number a string of decimal digits denotes. */
  function DigitsValue(s: string): nat
    requires AllDigits(s)
  {
    if s == [] then 0 else DigitsValue(s[..|s| - 1]) * 10 + DigitValue(s[|s| - 1])
  }

  lemma {:induction false} DigitsValueOfNatToString(n: nat)
    ensures DigitsValue(NatToString(n)) == n
    decreases n
  {
    var s := NatToString(n);
    if n >= 10 {
      DigitsValueOfNatToString(n / 10);
      assert s[..|s| - 1] == NatToString(n / 10);
    }
  }

  lemma NatToStringInjective(m: nat, n: nat)
    requires NatToString(m) == NatToString(n)
    ensures m == n
  {
    DigitsValueOfNatToString(m);
    DigitsValueOfNatToString(n);
  }

  /** Python's "{:0<width>d}" on a non-negative number: zeros on the left up to width. */
  function ZeroPad(n: nat, width: nat): (s: string)
    ensures AllDigits(s)
    ensures |s| == if |NatToString(n)| < width then width else |NatToString(n)|
    ensures s[|s| - |NatToString(n)|..] == NatToString(n)
    ensures forall i :: 0 <= i < |s| - |NatToString(n)| ==> s[i] == '0'
  {
    var digits := NatToString(n);
    if |digits| < width then seq(width - |digits|, _ => '0') + digits else digits
  }

  lemma {:induction false} DigitsValueOfZeros(z: nat)
    ensures AllDigits(seq(z, _ => '0')) && DigitsValue(seq(z, _ => '0')) == 0
  {
    if z > 0 {
      DigitsValueOfZeros(z - 1);
      assert seq(z, _ => '0')[..z - 1] == seq(z - 1, _ => '0');
    }
  }

  /** Leading zeros do not change the value of a digit string. */
  lemma {:induction false} DigitsValueLeadingZeros(z: nat, s: string)
    requires AllDigits(s)
    ensures AllDigits(seq(z, _ => '0') + s)
    ensures DigitsValue(seq(z, _ => '0') + s) == DigitsValue(s)
    decreases |s|
  {
    var zs := seq(z, _ => '0');
    if s == [] {
      assert zs + s == zs;
      DigitsValueOfZeros(z);
    } else {
      DigitsValueLeadingZeros(z, s[..|s| - 1]);
      assert (zs + s)[..|zs + s| - 1] == zs + s[..|s| - 1];
    }
  }

  lemma ZeroPadValue(n: nat, width: nat)
    ensures DigitsValue(ZeroPad(n, width)) == n
  {
    var digits := NatToString(n);
    var padded := ZeroPad(n, width);
    DigitsValueOfNatToString(n);
    if |digits| < width {
      var zs := seq(width - |digits|, _ => '0');
      assert padded == zs + digits;
      DigitsValueLeadingZeros(width - |digits|, digits);
    }
  }

  /** Distinct numbers are rendered differently at any padding width. */
  lemma ZeroPadInjective(m: nat, n: nat, width: nat)
    requires ZeroPad(m, width) == ZeroPad(n, width)
    ensures m == n
  {
    ZeroPadValue(m, width);
    ZeroPadValue(n, width);
  }

  // ---------------------------------------------------------------------
  // Strings
  // ---------------------------------------------------------------------

  predicate StartsWith(s: string, prefix: string) {
    |prefix| <= |s| && s[..|prefix|] == prefix
  }

  predicate EndsWith(s: string, suffix: string) {
    |suffix| <= |s| && s[|s| - |suffix|..] == suffix
  }

  function LowerChar(c: char): (d: char)
    ensures 'A' <= c <= 'Z' ==> d as int == c as int + 32
    ensures !('A' <= c <= 'Z') ==> d == c
  {
    if 'A' <= c <= 'Z' then (c as int + 32) as char else c
  }

  /** Python's str.lower(), on the ASCII letters. */
  function Lower(s: string): (r: string)
    ensures |r| == |s|
    ensures forall i :: 0 <= i < |s| ==> r[i] == LowerChar(s[i])
    ensures forall i :: 0 <= i < |r| ==> !('A' <= r[i] <= 'Z')
  {
    seq(|s|, i requires 0 <= i < |s| => LowerChar(s[i]))
  }

  predicate IsSpace(c: char) {
    c == ' ' || c == '\t' || c == '\n' || c == '\r' || c as int == 11 || c as int == 12
  }

  function TrimLeft(s: string): (r: string)
    ensures |r| <= |s| && r == s[|s| - |r|..]
    ensures r == [] || !IsSpace(r[0])
    ensures forall i :: 0 <= i < |s| - |r| ==> IsSpace(s[i])
  {
    if s != [] && IsSpace(s[0]) then TrimLeft(s[1..]) else s
  }

  function TrimRight(s: string): (r: string)
    ensures |r| <= |s| && r == s[..|r|]
    ensures r == [] || !IsSpace(r[|r| - 1])
    ensures forall i :: |r| <= i < |s| ==> IsSpace(s[i])
  {
    if s != [] && IsSpace(s[|s| - 1]) then TrimRight(s[..|s| - 1]) else s
  }

  /** Python's str.strip() with no argument, on ASCII whitespace. */
  function Trim(s: string): string { TrimRight(TrimLeft(s)) }

  /**
   * The system name `create` gives a record whose name is missing or the
   * placeholder `New`: the next number of its sequence, or `New` again when
   * the sequence yields nothing (`drawn` is then empty).
   */
  function SystemName(given: Option<string>, drawn: string): (n: string)
    ensures given.Some? && given.value != "New" ==> n == given.value
    ensures (given.None? || given.value == "New") ==> n == (if drawn != "" then drawn else "New")
  {
    if given.Some? && given.value != "New" then given.value
    else if drawn != "" then drawn else "New"
  }

  /** A number is drawn from its sequence only when the record has none; an existing one is kept. */
  function FillNumber(current: string, drawn: string): (n: string)
    ensures current != "" ==> n == current
    ensures current == "" ==> n == drawn
  {
    if current == "" then drawn else current
  }

  /** The position of the first element satisfying `p`, in sequence order. */
  function FirstWhere<T>(xs: seq<T>, p: T -> bool): (k: Option<nat>)
    ensures k.Some? ==> k.value < |xs| && p(xs[k.value])
    ensures k.Some? ==> forall j :: 0 <= j < k.value ==> !p(xs[j])
    ensures k.None? ==> forall j :: 0 <= j < |xs| ==> !p(xs[j])
    decreases |xs|
  {
    if xs == [] then None
    else if p(xs[0]) then Some(0)
    else
      var r := FirstWhere(xs[1..], p);
      if r.None? then None else Some(r.value + 1)
  }
}
