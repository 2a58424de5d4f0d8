/**
 The JavaScript string operations the dashboard's search relies on:
 `toLowerCase` (restricted to ASCII letters), `includes` (substring
 containment) and `Number.prototype.toString` for safe-integer amounts.
 */
module Text {

  predicate IsUpperAscii(c: char) {
    'A' <= c <= 'Z'
  }

  predicate IsDigit(c: char) {
    '0' <= c <= '9'
  }

  /** ASCII case folding of one character: capitals move to lower case, everything else is kept. */
  function LowerChar(c: char): (d: char)
    ensures !IsUpperAscii(d)
    ensures d == c <==> !IsUpperAscii(c)
    ensures IsUpperAscii(c) ==> d as int - 'a' as int == c as int - 'A' as int
  {
    if IsUpperAscii(c) then (c as int + ('a' as int - 'A' as int)) as char else c
  }

  /** `s.toLowerCase()` for ASCII letters. */
  function ToLower(s: string): (r: string)
    ensures |r| == |s|
    ensures forall i :: 0 <= i < |r| ==> !IsUpperAscii(r[i])
  {
    seq(|s|, i requires 0 <= i < |s| => LowerChar(s[i]))
  }

  /** Two characters that are the same letter up to ASCII case (or simply equal). */
  predicate SameUpToCase(x: char, y: char) {
    x == y ||
    (IsUpperAscii(x) && y as int - 'a' as int == x as int - 'A' as int) ||
    (IsUpperAscii(y) && x as int - 'a' as int == y as int - 'A' as int)
  }

  /** Two strings that agree position by position up to ASCII case. */
  predicate EqualUpToCase(a: string, b: string) {
    |a| == |b| && forall i :: 0 <= i < |a| ==> SameUpToCase(a[i], b[i])
  }

  /** Lower-casing identifies exactly the strings that differ only in ASCII case, so "ALI",
      "Ali" and "ali" are one search term. */
  lemma ToLowerEqualIffEqualUpToCase(a: string, b: string)
    ensures ToLower(a) == ToLower(b) <==> EqualUpToCase(a, b)
  {
    if ToLower(a) == ToLower(b) {
      forall i | 0 <= i < |a| ensures SameUpToCase(a[i], b[i]) {
        assert ToLower(a)[i] == ToLower(b)[i];
      }
    }
    if EqualUpToCase(a, b) {
      forall i | 0 <= i < |a| ensures ToLower(a)[i] == ToLower(b)[i] {
        assert SameUpToCase(a[i], b[i]);
      }
    }
  }

  /** Lower-casing twice is lower-casing once: a term stored already lowered is left as it is. */
  lemma ToLowerIdempotent(s: string)
    ensures ToLower(ToLower(s)) == ToLower(s)
  {
  }

  // ---------------------------------------------------------------------------
  // Substring containment

  predicate StartsWith(s: string, prefix: string) {
    |prefix| <= |s| && s[..|prefix|] == prefix
  }

  /** `s.includes(t)`: t starts at some position of s (the empty string is everywhere). */
  predicate Includes(s: string, t: string): (b: bool)
    ensures t == "" ==> b
    ensures b ==> |t| <= |s|
    decreases |s|
  {
    StartsWith(s, t) || (|s| > 0 && Includes(s[1..], t))
  }

  /** Reference definition of an occurrence of t in s at position i. */
  ghost predicate OccursAt(s: string, t: string, i: int) {
    0 <= i && i + |t| <= |s| && s[i..i + |t|] == t
  }

  lemma {:induction false} IncludesIffOccurs(s: string, t: string)
    ensures Includes(s, t) <==> exists i :: OccursAt(s, t, i)
    decreases |s|
  {
    if StartsWith(s, t) {
      assert OccursAt(s, t, 0);
    } else if |s| == 0 {
      forall i ensures !OccursAt(s, t, i) {
      }
    } else {
      IncludesIffOccurs(s[1..], t);
      if Includes(s[1..], t) {
        var i :| OccursAt(s[1..], t, i);
        assert s[1..][i..i + |t|] == s[i + 1..i + 1 + |t|];
        assert OccursAt(s, t, i + 1);
      } else {
        forall i ensures !OccursAt(s, t, i) {
          if 1 <= i && i + |t| <= |s| {
            assert s[1..][i - 1..i - 1 + |t|] == s[i..i + |t|];
            assert !OccursAt(s[1..], t, i - 1);
          }
        }
      }
    }
  }

  /** A term with an ASCII capital never occurs in a lower-cased string. */
  lemma {:induction false} LowerNeverIncludesCapital(s: string, t: string, k: int)
    requires 0 <= k < |t| && IsUpperAscii(t[k])
    ensures !Includes(ToLower(s), t)
  {
    forall i ensures !OccursAt(ToLower(s), t, i) {
      if 0 <= i && i + |t| <= |s| {
        assert ToLower(s)[i..i + |t|][k] == ToLower(s)[i + k];
      }
    }
    IncludesIffOccurs(ToLower(s), t);
  }

  // ---------------------------------------------------------------------------
  // Decimal text of an integer amount

  function DigitChar(d: nat): (c: char)
    requires d < 10
    ensures IsDigit(c)
  {
    ('0' as int + d) as char
  }

  function DigitValue(c: char): (d: nat)
    requires IsDigit(c)
    ensures d < 10 && DigitChar(d) == c
  {
    c as int - '0' as int
  }

  predicate AllDigits(s: string) {
    forall i :: 0 <= i < |s| ==> IsDigit(s[i])
  }

  /** Canonical decimal digits of a natural number: at least one digit, no leading zero. */
  function NatDigits(n: nat): (r: string)
    ensures |r| > 0 && AllDigits(r)
    ensures r[0] == '0' <==> n == 0
    decreases n
  {
    if n < 10 then [DigitChar(n)] else NatDigits(n / 10) + [DigitChar(n % 10)]
  }

  /** `n.toString()` for a safe integer n (|n| <= 2^53): an optional minus sign, then the digits. */
  function DecimalString(n: int): (r: string)
    ensures |r| > 0 && (r[0] == '-' <==> n < 0)
  {
    if n < 0 then ['-'] + NatDigits(-n) else NatDigits(n)
  }

  /** Text that reads as a canonical decimal integer. */
  predicate IsCanonicalDecimal(s: string) {
    if |s| > 0 && s[0] == '-' then
      |s| > 1 && AllDigits(s[1..]) && s[1] != '0'
    else
      |s| > 0 && AllDigits(s) && (s[0] == '0' ==> |s| == 1)
  }

  function DigitsValue(s: string): (n: nat)
    requires AllDigits(s)
    decreases |s|
  {
    if s == [] then 0 else DigitsValue(s[..|s| - 1]) * 10 + DigitValue(s[|s| - 1])
  }

  /** Reads canonical decimal text back into the integer it denotes. */
  function DecimalValue(s: string): (n: int)
    requires IsCanonicalDecimal(s)
  {
    if s[0] == '-' then -(DigitsValue(s[1..]) as int) else DigitsValue(s)
  }

  lemma {:induction false} NatDigitsRoundTrip(n: nat)
    ensures DigitsValue(NatDigits(n)) == n
    decreases n
  {
    var r := NatDigits(n);
    if n >= 10 {
      NatDigitsRoundTrip(n / 10);
      assert r[..|r| - 1] == NatDigits(n / 10);
      assert DigitValue(r[|r| - 1]) == n % 10;
    } else {
      assert r[..0] == [];
    }
  }

  /** The amount text is canonical decimal and reads back as the amount. */
  lemma DecimalRoundTrip(n: int)
    ensures IsCanonicalDecimal(DecimalString(n))
    ensures DecimalValue(DecimalString(n)) == n
  {
    var r := DecimalString(n);
    if n < 0 {
      assert r[1..] == NatDigits(-n);
      NatDigitsRoundTrip(-n);
    } else {
      NatDigitsRoundTrip(n);
    }
  }

  /** Different amounts have different text. */
  lemma DecimalStringInjective(m: int, n: int)
    requires DecimalString(m) == DecimalString(n)
    ensures m == n
  {
    DecimalRoundTrip(m);
    DecimalRoundTrip(n);
  }

  /** The text of a non-negative amount extends the text of that amount with its last digit
      dropped, so a term such as "3" matches 30 through 39. */
  lemma AppendedDigitKeepsPrefix(n: nat, d: nat)
    requires 0 < n && d < 10
    ensures StartsWith(DecimalString(10 * n + d), DecimalString(n))
    ensures Includes(DecimalString(10 * n + d), DecimalString(n))
  {
  }
}
