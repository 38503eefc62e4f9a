/** String helpers shared by the model: missing values, substring search,
    Python-style slicing and the numeric conversions the pipeline relies on. */
module Text {

  /** A value that pandas may hold as NaN / NaT. */
  datatype Option<+T> = None | Some(value: T) {
    function GetOr(default: T): T {
      match this
      case Some(v) => v
      case None => default
    }
  }

  /** The result of a conversion that Python may abort with an exception. */
  datatype Outcome<+T> = Ok(value: T) | Raises

  // ---------------------------------------------------------------------
  // Substring search (the `in` operator on strings and `str.contains`)
  // ---------------------------------------------------------------------

  /** `p` occurs in `s` at position `i`. */
  ghost predicate OccursAt(p: string, s: string, i: int) {
    0 <= i && i + |p| <= |s| && s[i..i + |p|] == p
  }

  /** Specification of substring containment. */
  ghost predicate IsSubstring(p: string, s: string) {
    exists i :: OccursAt(p, s, i)
  }

  /** `p in s` in Python; computed by scanning the start positions of `s`. */
  function Occurs(p: string, s: string): (r: bool)
    ensures r <==> IsSubstring(p, s)
    decreases |s|
  {
    if |p| > |s| then
      assert forall i :: !OccursAt(p, s, i);
      false
    else if s[..|p|] == p then
      assert OccursAt(p, s, 0);
      true
    else
      var rest := Occurs(p, s[1..]);
      assert forall i :: OccursAt(p, s[1..], i) ==> OccursAt(p, s, i + 1) by {
        forall i | OccursAt(p, s[1..], i) ensures OccursAt(p, s, i + 1) {
          assert s[1..][i..i + |p|] == s[i + 1..i + 1 + |p|];
        }
      }
      assert forall i :: OccursAt(p, s, i) && i > 0 ==> OccursAt(p, s[1..], i - 1) by {
        forall i | OccursAt(p, s, i) && i > 0 ensures OccursAt(p, s[1..], i - 1) {
          assert s[1..][i - 1..i - 1 + |p|] == s[i..i + |p|];
        }
      }
      rest
  }

  /** `str.contains("a|b|c")` with a pattern made only of literal alternatives. */
  function ContainsAny(names: seq<string>, s: string): (r: bool)
    ensures r <==> exists n :: n in names && IsSubstring(n, s)
  {
    exists n | n in names :: Occurs(n, s)
  }

  /** A pattern that is longer than the text cannot occur in it. */
  lemma LongerNeverOccurs(p: string, s: string)
    requires |p| > |s|
    ensures !IsSubstring(p, s)
  {
  }

  /** A pattern whose first character is absent from the text cannot occur in it. */
  lemma {:induction false} FirstCharAbsent(p: string, s: string)
    requires |p| > 0
    requires forall k :: 0 <= k < |s| ==> s[k] != p[0]
    ensures !IsSubstring(p, s)
  {
    forall i | 0 <= i && i + |p| <= |s|
      ensures !OccursAt(p, s, i)
    {
      assert s[i..i + |p|][0] == s[i];
    }
  }

  /** Every string occurs in itself. */
  lemma SelfOccurs(s: string)
    ensures IsSubstring(s, s)
  {
    assert OccursAt(s, s, 0);
  }

  /** A string occurs in any string that starts with it. */
  lemma PrefixOccurs(p: string, s: string)
    requires |p| <= |s| && s[..|p|] == p
    ensures IsSubstring(p, s)
  {
    assert OccursAt(p, s, 0);
  }

  // ---------------------------------------------------------------------
  // Python slicing `s[lo:hi]` with non-negative bounds
  // ---------------------------------------------------------------------

  /** `s[lo:hi]`: bounds past the end are clamped, an empty range gives "". */
  function Slice(s: string, lo: nat, hi: nat): (r: string)
    ensures |r| == if lo < hi && lo < |s| then (if hi < |s| then hi else |s|) - lo else 0
    ensures forall k :: 0 <= k < |r| ==> r[k] == s[lo + k]
  {
    var h := if hi < |s| then hi else |s|;
    if lo < h then s[lo..h] else ""
  }

  // ---------------------------------------------------------------------
  // Digits
  // ---------------------------------------------------------------------

  predicate IsDigit(c: char) {
    '0' <= c <= '9'
  }

  function DigitValue(c: char): (d: nat)
    requires IsDigit(c)
    ensures d < 10
  {
    (c as int - '0' as int) as nat
  }

  function DigitChar(d: nat): (c: char)
    requires d < 10
    ensures IsDigit(c) && DigitValue(c) == d
  {
    ('0' as int + d) as char
  }

  predicate AllDigits(s: string) {
    forall k :: 0 <= k < |s| ==> IsDigit(s[k])
  }

  /** Value of a non-empty run of decimal digits, most significant first. */
  function DigitsValue(s: string): nat
    requires AllDigits(s)
    decreases |s|
  {
    if |s| == 0 then 0 else 10 * DigitsValue(s[..|s| - 1]) + DigitValue(s[|s| - 1])
  }

  /** `pd.to_numeric(s, errors="coerce")` / `int(s)` restricted to plain digit
      strings: anything else is missing (or, for `int`, an exception). */
  function ParseNat(s: string): (r: Option<nat>)
    ensures r.Some? <==> |s| > 0 && AllDigits(s)
  {
    if |s| > 0 && AllDigits(s) then Some(DigitsValue(s)) else None
  }

  /** `str(n)` for a natural number. */
  function NatToString(n: nat): (r: string)
    ensures |r| > 0 && AllDigits(r)
    ensures |r| > 1 ==> r[0] != '0'
    decreases n
  {
    if n < 10 then [DigitChar(n)]
    else
      var r := NatToString(n / 10) + [DigitChar(n % 10)];
      assert r[0] == NatToString(n / 10)[0];
      r
  }

  /** Printing a number and parsing it back gives the number. */
  lemma {:induction false} ParsePrinted(n: nat)
    ensures ParseNat(NatToString(n)) == Some(n)
  {
    var s := NatToString(n);
    if n < 10 {
      assert s[..0] == [];
    } else {
      ParsePrinted(n / 10);
      assert s[..|s| - 1] == NatToString(n / 10);
      assert DigitsValue(s) == 10 * (n / 10) + n % 10;
    }
  }

  /** A digit string without a leading zero is printed back unchanged. */
  lemma {:induction false} PrintParsed(s: string)
    requires |s| > 0 && AllDigits(s)
    requires |s| > 1 ==> s[0] != '0'
    ensures NatToString(DigitsValue(s)) == s
    decreases |s|
  {
    if |s| == 1 {
      assert DigitsValue(s) == DigitValue(s[0]) by {
        assert s[..0] == [];
      }
    } else {
      var init := s[..|s| - 1];
      assert init[0] == s[0];
      PrintParsed(init);
      var v := DigitsValue(s);
      PositiveDigits(init);
      assert v / 10 == DigitsValue(init);
      assert v % 10 == DigitValue(s[|s| - 1]);
      assert s == init + [s[|s| - 1]];
    }
  }

  /** A digit string that does not start with 0 has a positive value. */
  lemma {:induction false} PositiveDigits(s: string)
    requires |s| > 0 && AllDigits(s) && s[0] != '0'
    ensures DigitsValue(s) > 0
    decreases |s|
  {
    if |s| > 1 {
      assert s[..|s| - 1][0] == s[0];
      PositiveDigits(s[..|s| - 1]);
    }
  }

  // ---------------------------------------------------------------------
  // Splitting
  // ---------------------------------------------------------------------

  /** Length of the longest prefix of `s` that contains no digit. */
  function PrefixWithoutDigits(s: string): (n: nat)
    ensures n <= |s|
    ensures forall k :: 0 <= k < n ==> !IsDigit(s[k])
    ensures n < |s| ==> IsDigit(s[n])
    decreases |s|
  {
    if |s| == 0 || IsDigit(s[0]) then 0 else 1 + PrefixWithoutDigits(s[1..])
  }

  /** `re.split(r"\d+", s)[0]`: the text before the first run of digits
      (the whole string when it has no digit). */
  function TextBeforeDigits(s: string): (r: string)
    ensures |r| <= |s| && s[..|r|] == r
    ensures forall k :: 0 <= k < |r| ==> !IsDigit(r[k])
    ensures |r| < |s| ==> IsDigit(s[|r|])
  {
    s[..PrefixWithoutDigits(s)]
  }

  /** Length of the longest prefix of `s` made of digits. */
  function DigitRunLength(s: string): (n: nat)
    ensures n <= |s| && AllDigits(s[..n])
    ensures n < |s| ==> !IsDigit(s[n])
    decreases |s|
  {
    if |s| == 0 || !IsDigit(s[0]) then 0
    else
      var n := 1 + DigitRunLength(s[1..]);
      assert s[..n] == [s[0]] + s[1..][..n - 1];
      n
  }

  /** `re.findall(r"\d+", s)[0]`: the first maximal run of digits, or None when
      `s` has no digit (Python then raises IndexError). */
  function FirstDigitRun(s: string): (r: Option<string>)
    ensures r.None? <==> AllNonDigits(s)
    ensures r.Some? ==> |r.value| > 0 && AllDigits(r.value)
    ensures r.Some? ==> var start := PrefixWithoutDigits(s);
                        start + |r.value| <= |s| && s[start..start + |r.value|] == r.value &&
                        (start + |r.value| < |s| ==> !IsDigit(s[start + |r.value|]))
  {
    var start := PrefixWithoutDigits(s);
    if start == |s| then None
    else
      var rest := s[start..];
      var n := DigitRunLength(rest);
      assert IsDigit(rest[0]);
      Some(rest[..n])
  }

  predicate AllNonDigits(s: string) {
    forall k :: 0 <= k < |s| ==> !IsDigit(s[k])
  }

  /** `s.split("(")[0]`: the text before the first occurrence of `c`. */
  function TextBefore(s: string, c: char): (r: string)
    ensures |r| <= |s| && s[..|r|] == r
    ensures c !in r
    ensures |r| < |s| ==> s[|r|] == c
    decreases |s|
  {
    if |s| == 0 || s[0] == c then "" else [s[0]] + TextBefore(s[1..], c)
  }
}
