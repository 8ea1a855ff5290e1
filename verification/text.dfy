/** Small string helpers shared by the models: an optional value, JavaScript's
    `String.prototype.includes`, and the decimal rendering of a non-negative
    integer used by template literals such as `size=${size}`. */
module Text {

  datatype Option<+T> = None | Some(value: T)

  /** `s.includes(pat)`: `pat` occurs in `s` at some position. */
  ghost predicate OccursAt(s: string, pat: string, i: int)
  {
    0 <= i && i + |pat| <= |s| && s[i..i + |pat|] == pat
  }

  /** `s.includes(pat)`, computed by scanning from the left. */
  function Contains(s: string, pat: string): (r: bool)
    ensures r <==> exists i :: OccursAt(s, pat, i)
    decreases |s|
  {
    if |s| < |pat| then
      false
    else if s[..|pat|] == pat then
      assert OccursAt(s, pat, 0);
      true
    else
      assert !OccursAt(s, pat, 0);
      ShiftOccurrence(s, pat);
      Contains(s[1..], pat)
  }

  /** Occurrences in `s[1..]` are the occurrences in `s` past position 0. */
  lemma ShiftOccurrence(s: string, pat: string)
    requires |s| > 0
    ensures forall i :: OccursAt(s[1..], pat, i) ==> OccursAt(s, pat, i + 1)
    ensures forall i :: OccursAt(s, pat, i) && i > 0 ==> OccursAt(s[1..], pat, i - 1)
  {
    forall i | OccursAt(s[1..], pat, i) ensures OccursAt(s, pat, i + 1) {
      assert s[1..][i..i + |pat|] == s[i + 1..i + 1 + |pat|];
    }
    forall i | OccursAt(s, pat, i) && i > 0 ensures OccursAt(s[1..], pat, i - 1) {
      assert s[1..][i - 1..i - 1 + |pat|] == s[i..i + |pat|];
    }
  }

  /** Appending a tail to a string cannot create an occurrence of `pat`
      when the tail's first character is not in `pat` and the first
      character of `pat` is not in the tail: an occurrence starting in the
      tail would begin with a tail character, and one straddling the seam
      would contain the tail's first character. */
  lemma {:induction false} ContainsAppend(s: string, tail: string, pat: string)
    requires |pat| > 0 && |tail| > 0
    requires tail[0] !in pat
    requires pat[0] !in tail
    ensures Contains(s + tail, pat) <==> Contains(s, pat)
  {
    var st := s + tail;
    if Contains(st, pat) {
      var i :| OccursAt(st, pat, i);
      assert st[i] == pat[0];
      assert i < |s|;
      assert st[|s|] == tail[0];
      assert forall k :: i <= k < i + |pat| ==> st[k] == pat[k - i];
      assert i + |pat| <= |s|;
      assert st[i..i + |pat|] == s[i..i + |pat|];
      assert OccursAt(s, pat, i);
    }
    if Contains(s, pat) {
      var i :| OccursAt(s, pat, i);
      assert st[i..i + |pat|] == s[i..i + |pat|];
      assert OccursAt(st, pat, i);
    }
  }

  predicate IsDigit(c: char)
  {
    '0' <= c <= '9'
  }

  function DigitChar(d: nat): (c: char)
    requires d < 10
    ensures IsDigit(c) && (c as int) - ('0' as int) == d
  {
    ['0', '1', '2', '3', '4', '5', '6', '7', '8', '9'][d]
  }

  function DigitValue(c: char): (d: nat)
    requires IsDigit(c)
    ensures d < 10
  {
    (c as int) - ('0' as int)
  }

  /** The decimal numeral JavaScript prints for a non-negative integer below
      10^21 (from there on it switches to exponent notation). */
  function Decimal(n: nat): (s: string)
    ensures |s| > 0
    ensures forall i :: 0 <= i < |s| ==> IsDigit(s[i])
  {
    if n < 10 then [DigitChar(n)] else Decimal(n / 10) + [DigitChar(n % 10)]
  }

  /** The value of a string of decimal digits. */
  function ParseDecimal(s: string): nat
    requires forall i :: 0 <= i < |s| ==> IsDigit(s[i])
  {
    if s == [] then 0
    else ParseDecimal(s[..|s| - 1]) * 10 + DigitValue(s[|s| - 1])
  }

  /** Reading a printed number back gives the number. */
  lemma {:induction false} DecimalRoundTrip(n: nat)
    ensures ParseDecimal(Decimal(n)) == n
  {
    var s := Decimal(n);
    if n >= 10 {
      DecimalRoundTrip(n / 10);
      assert s[..|s| - 1] == Decimal(n / 10);
    }
  }

  /** Different numbers print differently. */
  lemma DecimalInjective(m: nat, n: nat)
    requires Decimal(m) == Decimal(n)
    ensures m == n
  {
    DecimalRoundTrip(m);
    DecimalRoundTrip(n);
  }
}
