/**
 * Decimal rendering and parsing of Rust's `u32`: `u32::to_string` and
 * `str::parse::<u32>`, the two conversions the program chains together.
 */
module Decimal {
  import opened Wrappers
  import opened Ints

  predicate IsDigit(c: char) {
    '0' <= c <= '9'
  }

  function DigitChar(d: nat): (c: char)
    requires d < 10
    ensures IsDigit(c)
  {
    ('0' as int + d) as char
  }

  function DigitValue(c: char): (d: nat)
    requires IsDigit(c)
    ensures d < 10 && DigitChar(d) == c
  {
    c as int - '0' as int
  }

  /** `n.to_string()`: the shortest decimal rendering, most significant digit first. */
  function ToDecimal(n: nat): (s: string)
    ensures |s| > 0
    ensures forall i :: 0 <= i < |s| ==> IsDigit(s[i])
    ensures s[0] == '0' ==> n == 0
    ensures n < 10 <==> |s| == 1
    ensures 10 <= n < 100 <==> |s| == 2
  {
    if n < 10 then [DigitChar(n)] else ToDecimal(n / 10) + [DigitChar(n % 10)]
  }

  /** The kinds of `ParseIntError` that parsing an unsigned integer can report. */
  datatype ParseError = Empty | InvalidDigit | PosOverflow

  /**
   * `s.parse::<u32>()`: an optional leading '+', then decimal digits read from
   * the left; the first non-digit or the first step past `u32::MAX` fails.
   */
  function ParseU32(s: string): (r: Result<U32, ParseError>)
    ensures r == Err(Empty) <==> s == []
    ensures r.Ok? ==> s != [] && (s[0] == '+' ==> |s| >= 2)
    ensures r.Ok? ==> forall i :: (if s[0] == '+' then 1 else 0) <= i < |s| ==> IsDigit(s[i])
    ensures s != [] && s[0] == '-' ==> r == Err(InvalidDigit)
  {
    if |s| == 0 then Err(Empty)
    else if |s| == 1 && (s[0] == '+' || s[0] == '-') then Err(InvalidDigit)
    else if s[0] == '+' then Accumulate(0, s[1..])
    else Accumulate(0, s)
  }

  /** The digit loop of `parse`: `acc * 10 + digit` for each character, left to right. */
  function Accumulate(acc: U32, digits: string): (r: Result<U32, ParseError>)
    ensures r != Err(Empty)
    ensures r.Ok? ==> acc <= r.value && forall i :: 0 <= i < |digits| ==> IsDigit(digits[i])
    ensures (forall i :: 0 <= i < |digits| ==> IsDigit(digits[i])) ==> r != Err(InvalidDigit)
    decreases |digits|
  {
    if digits == [] then Ok(acc)
    else if !IsDigit(digits[0]) then Err(InvalidDigit)
    else if acc * 10 + DigitValue(digits[0]) > U32_MAX then Err(PosOverflow)
    else Accumulate(acc * 10 + DigitValue(digits[0]), digits[1..])
  }

  /** Reading one more digit after a successful prefix continues from the prefix's value. */
  lemma {:induction false} AccumulateSnoc(acc: U32, digits: string, c: char)
    ensures Accumulate(acc, digits + [c]) ==
      match Accumulate(acc, digits)
      case Ok(a) => Accumulate(a, [c])
      case Err(e) => Err(e)
    decreases |digits|
  {
    if digits == [] {
      assert digits + [c] == [c];
    } else {
      assert (digits + [c])[0] == digits[0];
      assert (digits + [c])[1..] == digits[1..] + [c];
      if IsDigit(digits[0]) && acc * 10 + DigitValue(digits[0]) <= U32_MAX {
        AccumulateSnoc(acc * 10 + DigitValue(digits[0]), digits[1..], c);
      }
    }
  }

  /** Every `u32` parses back from its own rendering, so `to_string` then `parse` cannot fail. */
  lemma {:induction false} ParseToDecimal(n: U32)
    ensures ParseU32(ToDecimal(n)) == Ok(n)
  {
    AccumulateToDecimal(n);
  }

  lemma {:induction false} AccumulateToDecimal(n: U32)
    ensures Accumulate(0, ToDecimal(n)) == Ok(n)
    decreases n
  {
    if n >= 10 {
      var c := DigitChar(n % 10);
      AccumulateToDecimal(n / 10);
      AccumulateSnoc(0, ToDecimal(n / 10), c);
      assert [c][1..] == [];
    } else {
      assert [DigitChar(n)][1..] == [];
    }
  }
}
