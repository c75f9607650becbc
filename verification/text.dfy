/** The string operations the components use: `toLowerCase`, `includes`,
    `trim`, `String(n)` and `padStart(2, '0')`.

    Case folding is ASCII only and `trim` strips the ASCII white space
    characters plus the no-break space, the byte-order mark and the two
    Unicode line separators. */
module Text {

  /** `c.toLowerCase()` for one character, restricted to ASCII letters. */
  function LowerChar(c: char): char
  {
    if 'A' <= c <= 'Z' then (c as int + 32) as char else c
  }

  /** `s.toLowerCase()`. */
  function ToLower(s: string): string
  {
    seq(|s|, i requires 0 <= i < |s| => LowerChar(s[i]))
  }

  /** Lower-casing twice is lower-casing once, so comparing `a.toLowerCase()`
      with an already lower-cased string is the same as comparing both
      lower-cased. */
  lemma ToLowerIdempotent(s: string)
    ensures ToLower(ToLower(s)) == ToLower(s)
  {
    assert forall i :: 0 <= i < |s| ==> LowerChar(LowerChar(s[i])) == LowerChar(s[i]);
  }

  predicate IsPrefix(p: string, s: string)
  {
    |p| <= |s| && s[..|p|] == p
  }

  /** `hay.includes(needle)`, scanning start positions from the left. */
  predicate Contains(hay: string, needle: string)
    decreases |hay|
  {
    IsPrefix(needle, hay) || (|hay| > 0 && Contains(hay[1..], needle))
  }

  /** `needle` occurs in `hay` starting at index `i`. */
  predicate OccursAt(hay: string, needle: string, i: int)
  {
    0 <= i <= |hay| - |needle| && hay[i..i + |needle|] == needle
  }

  /** The scan finds the needle exactly when it occurs at some position. */
  lemma {:induction false} ContainsIffOccurs(hay: string, needle: string)
    ensures Contains(hay, needle) <==> exists i :: OccursAt(hay, needle, i)
  {
    if Contains(hay, needle) {
      if IsPrefix(needle, hay) {
        assert OccursAt(hay, needle, 0);
      } else {
        ContainsIffOccurs(hay[1..], needle);
        var i :| OccursAt(hay[1..], needle, i);
        assert hay[i + 1..i + 1 + |needle|] == hay[1..][i..i + |needle|];
        assert OccursAt(hay, needle, i + 1);
      }
    }
    if exists i :: OccursAt(hay, needle, i) {
      var i :| OccursAt(hay, needle, i);
      if i == 0 {
        assert IsPrefix(needle, hay);
      } else {
        assert hay[1..][i - 1..i - 1 + |needle|] == hay[i..i + |needle|];
        assert OccursAt(hay[1..], needle, i - 1);
        ContainsIffOccurs(hay[1..], needle);
      }
    }
  }

  /** Every string contains the empty string, so an empty search query
      matches every field. */
  lemma ContainsEmpty(hay: string)
    ensures Contains(hay, "")
  {
    assert IsPrefix("", hay);
  }

  /** The characters `String.prototype.trim` removes (see the module note). */
  predicate IsSpace(c: char)
  {
    c == ' ' || c == '\t' || c == '\n' || c == '\r' || c == '\U{000B}' || c == '\U{000C}'
    || c == '\U{00A0}' || c == '\U{FEFF}' || c == '\U{2028}' || c == '\U{2029}'
  }

  /** Drops the leading white space: the result is a suffix of `s` that does
      not start with white space, and everything dropped was white space. */
  function TrimStart(s: string): (r: string)
    ensures |r| <= |s| && r == s[|s| - |r|..]
    ensures forall i :: 0 <= i < |s| - |r| ==> IsSpace(s[i])
    ensures r == [] || !IsSpace(r[0])
  {
    if |s| > 0 && IsSpace(s[0]) then TrimStart(s[1..]) else s
  }

  /** Drops the trailing white space: the result is a prefix of `s` that does
      not end with white space, and everything dropped was white space. */
  function TrimEnd(s: string): (r: string)
    ensures |r| <= |s| && r == s[..|r|]
    ensures forall i :: |r| <= i < |s| ==> IsSpace(s[i])
    ensures r == [] || !IsSpace(r[|r| - 1])
  {
    if |s| > 0 && IsSpace(s[|s| - 1]) then TrimEnd(s[..|s| - 1]) else s
  }

  /** `s.trim()`: drops the leading and the trailing white space. */
  function Trim(s: string): string
  {
    TrimEnd(TrimStart(s))
  }

  /** What `trim` leaves: a piece of `s` that neither starts nor ends with
      white space, and that is empty exactly when `s` is all white space. */
  lemma TrimMeaning(s: string)
    ensures exists k :: OccursAt(s, Trim(s), k)
    ensures Trim(s) == [] || (!IsSpace(Trim(s)[0]) && !IsSpace(Trim(s)[|Trim(s)| - 1]))
    ensures Trim(s) == [] <==> forall i :: 0 <= i < |s| ==> IsSpace(s[i])
  {
    TrimOccurs(s);
    TrimmedEmpty(s);
  }

  lemma TrimOccurs(s: string)
    ensures OccursAt(s, Trim(s), |s| - |TrimStart(s)|)
  {
    var front := TrimStart(s);
    var t := TrimEnd(front);
    var k := |s| - |front|;
    assert t == front[..|t|];
    assert front == s[k..];
    assert s[k..][..|t|] == s[k..k + |t|];
  }

  lemma TrimmedEmpty(s: string)
    ensures TrimEnd(TrimStart(s)) == [] <==> forall i :: 0 <= i < |s| ==> IsSpace(s[i])
  {
    var front := TrimStart(s);
    if TrimEnd(front) == [] && front != [] {
      assert false;
    }
  }

  /** Trimming a trimmed string changes nothing. */
  lemma TrimIdempotent(s: string)
    ensures Trim(Trim(s)) == Trim(s)
  {
    TrimMeaning(s);
    var t := Trim(s);
    if t != [] {
      assert TrimStart(t) == t;
      assert TrimEnd(t) == t;
    }
  }

  predicate IsDigit(c: char)
  {
    '0' <= c <= '9'
  }

  predicate AllDigits(s: string)
  {
    forall i :: 0 <= i < |s| ==> IsDigit(s[i])
  }

  function DigitChar(d: nat): char
    requires d < 10
  {
    ('0' as int + d) as char
  }

  /** `String(n)` for a non-negative integer: its decimal digits, most
      significant first, with no leading zero. */
  function Decimal(n: nat): (r: string)
    ensures |r| >= 1 && AllDigits(r)
    ensures n < 10 <==> |r| == 1
    ensures 10 <= n < 100 ==> |r| == 2
  {
    if n < 10 then [DigitChar(n)] else Decimal(n / 10) + [DigitChar(n % 10)]
  }

  /** The number a string of decimal digits denotes. */
  function DigitsValue(s: string): nat
    requires AllDigits(s)
  {
    if s == [] then 0
    else DigitsValue(s[..|s| - 1]) * 10 + (s[|s| - 1] as int - '0' as int)
  }

  /** Reading back the digits `String(n)` wrote gives `n`. */
  lemma {:induction false} DecimalRoundTrip(n: nat)
    ensures DigitsValue(Decimal(n)) == n
  {
    if n >= 10 {
      DecimalRoundTrip(n / 10);
      var d := Decimal(n);
      assert d[..|d| - 1] == Decimal(n / 10);
    }
  }

  /** A leading zero does not change the value of a digit string. */
  lemma {:induction false} LeadingZero(s: string)
    requires AllDigits(s)
    ensures AllDigits(['0'] + s) && DigitsValue(['0'] + s) == DigitsValue(s)
  {
    if s != [] {
      LeadingZero(s[..|s| - 1]);
      assert (['0'] + s)[..|['0'] + s| - 1] == ['0'] + s[..|s| - 1];
    }
  }

  /** `s.padStart(2, '0')`. */
  function PadStart2(s: string): string
  {
    if |s| < 2 then seq(2 - |s|, _ => '0') + s else s
  }

  /** `String(n).padStart(2, '0')` for `n < 100` is two digits that read back as `n`. */
  lemma TwoDigits(n: nat)
    requires n < 100
    ensures |PadStart2(Decimal(n))| == 2 && AllDigits(PadStart2(Decimal(n)))
    ensures DigitsValue(PadStart2(Decimal(n))) == n
  {
    DecimalRoundTrip(n);
    if n < 10 {
      assert PadStart2(Decimal(n)) == ['0'] + Decimal(n);
      LeadingZero(Decimal(n));
    }
  }
}
