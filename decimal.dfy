/** Decimal text of unsigned integers, as Rust's `to_string` prints them and
  * `str::parse::<u64>` reads them. Shadow ids and farm ids carry numbers in
  * this form. */
module Decimal {
  import opened Base

  predicate IsDigit(c: char) { '0' <= c <= '9' }

  predicate AllDigits(s: string) {
    forall i :: 0 <= i < |s| ==> IsDigit(s[i])
  }

  function DigitValue(c: char): (d: nat)
    requires IsDigit(c)
    ensures d < 10
  {
    c as int - '0' as int
  }

  function DigitChar(d: nat): (c: char)
    requires d < 10
    ensures IsDigit(c) && DigitValue(c) == d
  {
    ('0' as int + d) as char
  }

  /** `n.to_string()`: the shortest decimal text of `n`, without sign. */
  function Print(n: nat): (s: string)
    ensures |s| > 0 && AllDigits(s)
    ensures n > 0 ==> s[0] != '0'
    decreases n
  {
    if n < 10 then [DigitChar(n)] else Print(n / 10) + [DigitChar(n % 10)]
  }

  /** The number a string of decimal digits denotes (leading zeros allowed). */
  function Value(s: string): nat
    requires AllDigits(s)
  {
    if s == [] then 0 else Value(s[..|s| - 1]) * 10 + DigitValue(s[|s| - 1])
  }

  /** `s.parse::<u64>().ok()`: an optional leading `+`, then one or more
    * digits whose value fits in 64 bits. Leading zeros are accepted. */
  function ParseU64(s: string): (r: Option<nat>)
    ensures r.Some? ==> r.value <= U64_MAX
    ensures r.Some? ==> exists k :: 0 <= k < |s| && IsDigit(s[k])
  {
    var digits := if |s| > 0 && s[0] == '+' then s[1..] else s;
    if |digits| > 0 && AllDigits(digits) && Value(digits) <= U64_MAX then
      assert IsDigit(s[|s| - 1]);
      Some(Value(digits))
    else None
  }

  lemma {:induction false} ValueOfPrint(n: nat)
    ensures Value(Print(n)) == n
    decreases n
  {
    if n >= 10 {
      var s := Print(n);
      assert s[..|s| - 1] == Print(n / 10);
      ValueOfPrint(n / 10);
    }
  }

  /** Reading back a printed 64-bit number gives that number. */
  lemma ParsePrint(n: nat)
    requires n <= U64_MAX
    ensures ParseU64(Print(n)) == Some(n)
  {
    ValueOfPrint(n);
  }

  /** An empty or negative text is not a `u64`; a leading `+` and leading zeros are accepted. */
  lemma ParseExamples()
    ensures ParseU64("") == None
    ensures ParseU64("+") == None
    ensures ParseU64("-1") == None
    ensures ParseU64("+007") == Some(7)
  {
    assert Value("00") == 0;
    assert Value("007") == 7;
    assert "+007"[1..] == "007";
  }
}
