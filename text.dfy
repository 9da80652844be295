/**
 * The string operations the screens use: JavaScript's `toLowerCase` (on ASCII letters),
 * `String.prototype.includes`, and decimal rendering of non-negative integers.
 */
module Text {

  predicate IsUpper(c: char) {
    'A' <= c <= 'Z'
  }

  function LowerChar(c: char): char {
    if IsUpper(c) then (c as int + 32) as char else c
  }

  /** `s.toLowerCase()`, restricted to the ASCII letters. */
  function Lower(s: string): (r: string)
    ensures |r| == |s|
    ensures forall i :: 0 <= i < |s| ==> r[i] == LowerChar(s[i])
  {
    if s == [] then [] else [LowerChar(s[0])] + Lower(s[1..])
  }

  /** `term` occurs in `text` starting at position `i`. */
  predicate OccursAt(text: string, term: string, i: int) {
    0 <= i && i + |term| <= |text| && text[i..i + |term|] == term
  }

  /** `text.includes(term)`: a scan from the left for a block equal to `term`. */
  predicate Includes(text: string, term: string)
    decreases |text|
  {
    |term| <= |text| && (text[..|term|] == term || Includes(text[1..], term))
  }

  /** The scan finds `term` exactly when it occurs somewhere in `text`. */
  lemma {:induction false} IncludesIff(text: string, term: string)
    ensures Includes(text, term) <==> exists i :: OccursAt(text, term, i)
    decreases |text|
  {
    if |term| > |text| {
      assert forall i :: !OccursAt(text, term, i);
    } else if text[..|term|] == term {
      assert OccursAt(text, term, 0);
    } else {
      IncludesIff(text[1..], term);
      forall i | OccursAt(text[1..], term, i)
        ensures OccursAt(text, term, i + 1)
      {
        assert text[1..][i..i + |term|] == text[i + 1..i + 1 + |term|];
      }
      forall i | OccursAt(text, term, i)
        ensures OccursAt(text[1..], term, i - 1)
      {
        assert i != 0;
        assert text[1..][i - 1..i - 1 + |term|] == text[i..i + |term|];
      }
    }
  }

  /** The empty term is found in every text. */
  lemma IncludesEmpty(text: string)
    ensures Includes(text, "")
  {
    assert text[..0] == "";
  }

  function DigitChar(d: nat): (c: char)
    requires d < 10
    ensures '0' <= c <= '9'
  {
    ('0' as int + d) as char
  }

  function DigitValue(c: char): int {
    c as int - '0' as int
  }

  /** The decimal numeral of `n`, as a template literal renders a non-negative integer. */
  function Decimal(n: nat): (s: string)
    ensures |s| >= 1
    ensures forall i :: 0 <= i < |s| ==> '0' <= s[i] <= '9'
    decreases n
  {
    if n < 10 then [DigitChar(n)] else Decimal(n / 10) + [DigitChar(n % 10)]
  }

  /** Reads a string of decimal digits back as a number. */
  function ParseDecimal(s: string): int {
    if s == [] then 0 else ParseDecimal(s[..|s| - 1]) * 10 + DigitValue(s[|s| - 1])
  }

  /** Rendering a number in decimal loses nothing: parsing the numeral gives the number back. */
  lemma {:induction false} ParseDecimalInvertsDecimal(n: nat)
    ensures ParseDecimal(Decimal(n)) == n
    decreases n
  {
    if n >= 10 {
      ParseDecimalInvertsDecimal(n / 10);
      var s := Decimal(n);
      assert s[..|s| - 1] == Decimal(n / 10);
    }
  }

  function Pow10(k: nat): (p: nat)
    ensures p >= 1
  {
    if k == 0 then 1 else 10 * Pow10(k - 1)
  }

  /** A number with exactly `k` decimal digits renders as `k` characters. */
  lemma {:induction false} DecimalLength(n: nat, k: nat)
    requires 1 <= k && Pow10(k - 1) <= n < Pow10(k)
    ensures |Decimal(n)| == k
    decreases k
  {
    if k > 1 {
      assert Pow10(k - 1) == 10 * Pow10(k - 2);
      assert n >= 10;
      DecimalLength(n / 10, k - 1);
    } else {
      assert n < 10;
    }
  }
}
