/** The Python string operations the scraper relies on: `in` on strings,
    `str.strip`, `str.isnumeric` and `str(int)`. */
module Strings {

  /** The characters stripped from anchor texts (app/car.py:62,83,106,107). */
  const AnchorWhitespace: set<char> := {' ', '\n', '\t'}

  /** The characters stripped from detail headings and values (app/car.py:148,149). */
  const DetailWhitespace: set<char> := {' ', '\r', '\n', '\t'}

  /** The characters `str.strip()` removes when called without an argument,
      restricted to the ASCII and Latin-1 range (app/car.py:131,136,141). */
  const PythonWhitespace: set<char> :=
    {' ', '\t', '\n', '\r', '\U{0B}', '\U{0C}', '\U{1C}', '\U{1D}', '\U{1E}', '\U{1F}', '\U{85}', '\U{A0}'}

  // ---------------------------------------------------------------------------
  // Substring test: Python's `t in s`
  // ---------------------------------------------------------------------------

  /** `t` occurs in `s` starting at index `i`. */
  predicate OccursAt(s: string, t: string, i: int)
  {
    0 <= i && i + |t| <= |s| && s[i..i + |t|] == t
  }

  /** Python's `t in s` for strings, scanning `s` from the left. */
  function Contains(s: string, t: string): bool
    decreases |s|
  {
    |t| <= |s| && (s[..|t|] == t || Contains(s[1..], t))
  }

  /** `t in s` holds exactly when `t` occurs in `s` at some index. */
  lemma {:induction false} ContainsIffOccurs(s: string, t: string)
    ensures Contains(s, t) <==> exists i :: OccursAt(s, t, i)
    decreases |s|
  {
    if |t| <= |s| && s[..|t|] != t {
      ContainsIffOccurs(s[1..], t);
      if Contains(s[1..], t) {
        var i :| OccursAt(s[1..], t, i);
        assert s[1..][i..i + |t|] == s[i + 1..i + 1 + |t|];
        assert OccursAt(s, t, i + 1);
      }
      if i :| OccursAt(s, t, i) {
        assert i != 0;
        assert s[1..][i - 1..i - 1 + |t|] == s[i..i + |t|];
        assert OccursAt(s[1..], t, i - 1);
      }
    } else if |t| <= |s| {
      assert OccursAt(s, t, 0);
    }
  }

  /** `t` is a suffix of `s`. */
  predicate EndsWith(s: string, t: string)
  {
    |t| <= |s| && s[|s| - |t|..] == t
  }

  lemma EndsWithAppend(s: string, t: string)
    ensures EndsWith(s + t, t)
  {
    assert (s + t)[|s + t| - |t|..] == t;
  }

  // ---------------------------------------------------------------------------
  // str.strip(chars)
  // ---------------------------------------------------------------------------

  /** Neither end of `s` is a character of `cs`. */
  predicate Trimmed(s: string, cs: set<char>)
  {
    s != [] ==> s[0] !in cs && s[|s| - 1] !in cs
  }

  function TrimStart(s: string, cs: set<char>): (r: string)
    ensures r != [] ==> r[0] !in cs
    decreases |s|
  {
    if s != [] && s[0] in cs then TrimStart(s[1..], cs) else s
  }

  function TrimEnd(s: string, cs: set<char>): (r: string)
    ensures |r| <= |s| && r == s[..|r|]
    ensures r != [] ==> r[|r| - 1] !in cs
    decreases |s|
  {
    if s != [] && s[|s| - 1] in cs then TrimEnd(s[..|s| - 1], cs) else s
  }

  /** Python's `s.strip(cs)`: drop the longest prefix and the longest suffix
      made only of characters in `cs`. */
  function Strip(s: string, cs: set<char>): (r: string)
    ensures Trimmed(r, cs)
  {
    TrimEnd(TrimStart(s, cs), cs)
  }

  lemma {:induction false} TrimStartSlice(s: string, cs: set<char>) returns (i: nat)
    ensures i <= |s| && TrimStart(s, cs) == s[i..]
    ensures forall k :: 0 <= k < i ==> s[k] in cs
    ensures TrimStart(s, cs) != [] ==> TrimStart(s, cs)[0] !in cs
    decreases |s|
  {
    if s != [] && s[0] in cs {
      var j := TrimStartSlice(s[1..], cs);
      i := j + 1;
      assert s[1..][j..] == s[i..];
      forall k | 0 <= k < i ensures s[k] in cs {
        if k > 0 { assert s[k] == s[1..][k - 1]; }
      }
    } else {
      i := 0;
    }
  }

  lemma {:induction false} TrimEndSlice(s: string, cs: set<char>) returns (j: nat)
    ensures j <= |s| && TrimEnd(s, cs) == s[..j]
    ensures forall k :: j <= k < |s| ==> s[k] in cs
    ensures TrimEnd(s, cs) != [] ==> TrimEnd(s, cs)[|TrimEnd(s, cs)| - 1] !in cs
    decreases |s|
  {
    if s != [] && s[|s| - 1] in cs {
      j := TrimEndSlice(s[..|s| - 1], cs);
      assert s[..|s| - 1][..j] == s[..j];
      forall k | j <= k < |s| ensures s[k] in cs {
        if k < |s| - 1 { assert s[k] == s[..|s| - 1][k]; }
      }
    } else {
      j := |s|;
    }
  }

  /** The result of `strip` is the slice `s[i..j]` of its input: everything cut
      away is in `cs`, and a non-empty result neither starts nor ends with a
      character of `cs`. */
  lemma StripSlice(s: string, cs: set<char>) returns (i: nat, j: nat)
    ensures i <= j <= |s| && Strip(s, cs) == s[i..j]
    ensures forall k :: 0 <= k < i ==> s[k] in cs
    ensures forall k :: j <= k < |s| ==> s[k] in cs
    ensures Strip(s, cs) != [] ==> Strip(s, cs)[0] !in cs && Strip(s, cs)[|Strip(s, cs)| - 1] !in cs
  {
    i := TrimStartSlice(s, cs);
    var t := TrimStart(s, cs);
    var e := TrimEndSlice(t, cs);
    j := i + e;
    assert s[i..][..e] == s[i..j];
    forall k | j <= k < |s| ensures s[k] in cs {
      assert s[k] == t[k - i];
    }
    if Strip(s, cs) != [] {
      assert Strip(s, cs)[0] == t[0];
    }
  }

  /** A string that neither starts nor ends with a character of `cs` is left
      unchanged by `strip`. */
  lemma StripUnchanged(s: string, cs: set<char>)
    requires s != [] ==> s[0] !in cs && s[|s| - 1] !in cs
    ensures Strip(s, cs) == s
  {
    assert TrimStart(s, cs) == s;
  }

  /** Stripping twice is the same as stripping once. */
  lemma StripIdempotent(s: string, cs: set<char>)
    ensures Strip(Strip(s, cs), cs) == Strip(s, cs)
  {
    var _, _ := StripSlice(s, cs);
    StripUnchanged(Strip(s, cs), cs);
  }

  // ---------------------------------------------------------------------------
  // str.isnumeric() and str(int)
  // ---------------------------------------------------------------------------

  predicate IsDigit(c: char)
  {
    '0' <= c <= '9'
  }

  /** `s.isnumeric()`, approximated by "non-empty and all ASCII digits". */
  predicate IsNumeric(s: string)
  {
    s != [] && forall k :: 0 <= k < |s| ==> IsDigit(s[k])
  }

  /** A numeric string is left unchanged by stripping anchor whitespace. */
  lemma NumericStripsToItself(s: string)
    requires IsNumeric(s)
    ensures Strip(s, AnchorWhitespace) == s
  {
    assert IsDigit(s[0]) && IsDigit(s[|s| - 1]);
    StripUnchanged(s, AnchorWhitespace);
  }

  function DigitChar(d: nat): char
    requires d < 10
  {
    ['0', '1', '2', '3', '4', '5', '6', '7', '8', '9'][d]
  }

  /** The decimal digits of `n`, without leading zeros. */
  function NatToDecimal(n: nat): (r: string)
    ensures IsNumeric(r)
    ensures r[0] == '0' <==> n == 0
    decreases n
  {
    if n < 10 then [DigitChar(n)] else NatToDecimal(n / 10) + [DigitChar(n % 10)]
  }

  /** Python's `str(n)` (also `'%s' % n` and `'{}'.format(n)`) for an integer. */
  function Decimal(n: int): string
  {
    if n < 0 then "-" + NatToDecimal(-n) else NatToDecimal(n)
  }

  /** The value of a string of decimal digits. */
  function DecimalValue(s: string): int
    decreases |s|
  {
    if s == [] then 0 else 10 * DecimalValue(s[..|s| - 1]) + (s[|s| - 1] as int - '0' as int)
  }

  /** Reading the digits back gives the number: the year written into the URL
      is the year the caller supplied. */
  lemma {:induction false} DecimalRoundTrip(n: nat)
    ensures DecimalValue(NatToDecimal(n)) == n
    decreases n
  {
    if n >= 10 {
      DecimalRoundTrip(n / 10);
      var s := NatToDecimal(n);
      assert s[..|s| - 1] == NatToDecimal(n / 10);
    }
  }

  /** A written integer starts with `-` exactly when it is negative. */
  lemma DecimalSign(n: int)
    ensures Decimal(n) != [] && (Decimal(n)[0] == '-' <==> n < 0)
  {
    if n >= 0 {
      assert IsDigit(NatToDecimal(n)[0]);
    }
  }

  lemma NatToDecimalInjective(m: nat, n: nat)
    requires NatToDecimal(m) == NatToDecimal(n)
    ensures m == n
  {
    DecimalRoundTrip(m);
    DecimalRoundTrip(n);
  }

  /** Distinct integers are written differently. */
  lemma DecimalInjective(a: int, b: int)
    requires Decimal(a) == Decimal(b)
    ensures a == b
  {
    DecimalSign(a);
    DecimalSign(b);
    if a < 0 {
      assert Decimal(a)[1..] == NatToDecimal(-a);
      assert Decimal(b)[1..] == NatToDecimal(-b);
      NatToDecimalInjective(-a, -b);
    } else {
      NatToDecimalInjective(a, b);
    }
  }
}
