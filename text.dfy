/** The string operations the pages rely on, modelled on ASCII text:
    `toLowerCase`, `String.prototype.includes`, and the decimal integer forms of
    `String(n)` and `Number(s)`. */
module Text {
  import opened Wrappers

  // ---------------------------------------------------------------- lowercase

  /** ASCII `toLowerCase` of one character; every other character is kept. */
  function LowerChar(c: char): char {
    if 'A' <= c <= 'Z' then (c as int + 32) as char else c
  }

  function Lower(s: string): string {
    seq(|s|, i requires 0 <= i < |s| => LowerChar(s[i]))
  }

  /** Lowercasing twice is lowercasing once: the search is case-insensitive. */
  lemma LowerIdempotent(s: string)
    ensures Lower(Lower(s)) == Lower(s)
  {
  }

  // ---------------------------------------------------------------- includes

  /** `needle` is a prefix of `hay`. */
  predicate IsPrefix(needle: string, hay: string) {
    |needle| <= |hay| && hay[..|needle|] == needle
  }

  /** `hay.includes(needle)`: try every starting position from the left. */
  function Includes(hay: string, needle: string): bool
    decreases |hay|
  {
    if IsPrefix(needle, hay) then true
    else if hay == [] then false
    else Includes(hay[1..], needle)
  }

  /** `needle` occurs in `hay` starting at position `i`. */
  ghost predicate OccursAt(hay: string, needle: string, i: int) {
    0 <= i && i + |needle| <= |hay| && hay[i..i + |needle|] == needle
  }

  /** An occurrence found by the scan is a real occurrence. */
  lemma {:induction false} IncludesHasOccurrence(hay: string, needle: string)
    requires Includes(hay, needle)
    ensures exists i :: OccursAt(hay, needle, i)
    decreases |hay|
  {
    if IsPrefix(needle, hay) {
      assert OccursAt(hay, needle, 0);
    } else {
      var tail := hay[1..];
      IncludesHasOccurrence(tail, needle);
      var i :| OccursAt(tail, needle, i);
      assert hay[i + 1..i + 1 + |needle|] == tail[i..i + |needle|];
      assert OccursAt(hay, needle, i + 1);
    }
  }

  /** The scan does not miss an occurrence. */
  lemma {:induction false} OccurrenceIsIncluded(hay: string, needle: string, i: int)
    requires OccursAt(hay, needle, i)
    ensures Includes(hay, needle)
    decreases i
  {
    if i == 0 {
      assert hay[..|needle|] == hay[0..|needle|];
      assert IsPrefix(needle, hay);
    } else {
      var tail := hay[1..];
      assert tail[i - 1..i - 1 + |needle|] == hay[i..i + |needle|];
      OccurrenceIsIncluded(tail, needle, i - 1);
    }
  }

  /** The scan finds an occurrence exactly when one exists. */
  lemma IncludesIff(hay: string, needle: string)
    ensures Includes(hay, needle) <==> exists i :: OccursAt(hay, needle, i)
  {
    if Includes(hay, needle) {
      IncludesHasOccurrence(hay, needle);
    }
    if exists i :: OccursAt(hay, needle, i) {
      var i :| OccursAt(hay, needle, i);
      OccurrenceIsIncluded(hay, needle, i);
    }
  }

  /** Every string includes the empty string. */
  lemma IncludesEmpty(hay: string)
    ensures Includes(hay, "")
  {
  }

  // ---------------------------------------------------------------- numbers

  predicate IsDigit(c: char) {
    '0' <= c <= '9'
  }

  predicate AllDigits(s: string) {
    forall i :: 0 <= i < |s| ==> IsDigit(s[i])
  }

  function DigitChar(d: nat): char
    requires d < 10
  {
    ('0' as int + d) as char
  }

  function DigitValue(c: char): nat
    requires IsDigit(c)
  {
    c as int - '0' as int
  }

  /** The value of a string of decimal digits, read left to right. */
  function DigitsValue(s: string): nat
    requires AllDigits(s)
  {
    if s == [] then 0 else DigitsValue(s[..|s| - 1]) * 10 + DigitValue(s[|s| - 1])
  }

  /** The integer syntax the model gives `Number`: an optional `-` and one or more digits. */
  predicate IsNumeric(s: string) {
    (|s| > 0 && AllDigits(s)) || (|s| > 1 && s[0] == '-' && AllDigits(s[1..]))
  }

  /** `Number(s)`: the empty string is 0, a numeric string its value, anything else NaN (`None`). */
  function NumberValue(s: string): (r: Option<int>)
    ensures r.None? <==> s != "" && !IsNumeric(s)
  {
    if s == "" then Some(0)
    else if !IsNumeric(s) then None
    else if s[0] == '-' then Some(-(DigitsValue(s[1..]) as int))
    else Some(DigitsValue(s))
  }

  /** `String(n)` of a natural number: its decimal digits, no leading zeros. */
  function NatText(n: nat): string {
    (if n < 10 then "" else NatText(n / 10)) + [DigitChar(n % 10)]
  }

  /** `String(n)` of an integer. */
  function IntToText(n: int): string {
    if n < 0 then "-" + NatText(-n) else NatText(n)
  }

  /** Appending a digit multiplies the value by ten and adds the digit. */
  lemma DigitsValueSnoc(front: string, c: char)
    requires AllDigits(front) && IsDigit(c)
    ensures AllDigits(front + [c])
    ensures DigitsValue(front + [c]) == DigitsValue(front) * 10 + DigitValue(c)
  {
    var t := front + [c];
    assert t[..|t| - 1] == front;
  }

  lemma {:induction false} NatTextRoundTrip(n: nat)
    ensures |NatText(n)| > 0 && AllDigits(NatText(n)) && DigitsValue(NatText(n)) == n
  {
    var d := n % 10;
    var front := if n < 10 then "" else NatText(n / 10);
    if n >= 10 {
      NatTextRoundTrip(n / 10);
    }
    assert DigitsValue(front) == n / 10;
    DigitsValueSnoc(front, DigitChar(d));
    assert DigitValue(DigitChar(d)) == d;
  }

  /** `Number(String(n)) == n`, and `String(n)` is never NaN. */
  lemma IntToTextRoundTrip(n: int)
    ensures IntToText(n) != "" && IsNumeric(IntToText(n))
    ensures NumberValue(IntToText(n)) == Some(n)
  {
    if n < 0 {
      NatTextRoundTrip(-n);
      var t := IntToText(n);
      assert t[1..] == NatText(-n);
    } else {
      NatTextRoundTrip(n);
    }
  }
}
