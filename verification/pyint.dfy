/** The two pieces of Python's text handling the ticket viewer relies on when it
    reads a number from the keyboard: `str.strip()` and `int(str)` in base 10,
    together with `str(int)`, the rendering used to print numbers. */
module PyInt {
  import opened Wrappers

  /** The characters `str.isspace()` accepts, which `strip()` removes and
      `int()` ignores around the number. */
  const Whitespace: set<char> := {
    ' ', '\t', '\n', '\U{0b}', '\U{0c}', '\r', '\U{1c}', '\U{1d}', '\U{1e}', '\U{1f}',
    '\U{85}', '\U{a0}', '\U{1680}',
    '\U{2000}', '\U{2001}', '\U{2002}', '\U{2003}', '\U{2004}', '\U{2005}',
    '\U{2006}', '\U{2007}', '\U{2008}', '\U{2009}', '\U{200a}',
    '\U{2028}', '\U{2029}', '\U{202f}', '\U{205f}', '\U{3000}'}

  predicate IsSpace(c: char)
  {
    c in Whitespace
  }

  predicate IsDigit(c: char)
  {
    '0' <= c <= '9'
  }

  /** Drops leading white space. */
  function TrimStart(s: string): string
  {
    if |s| > 0 && IsSpace(s[0]) then TrimStart(s[1..]) else s
  }

  /** Drops trailing white space. */
  function TrimEnd(s: string): string
  {
    if |s| > 0 && IsSpace(s[|s| - 1]) then TrimEnd(s[..|s| - 1]) else s
  }

  /** `s.strip()` */
  function Strip(s: string): string
  {
    TrimEnd(TrimStart(s))
  }

  /** TrimStart removes a prefix made only of white space, and what is left
      does not start with white space. */
  lemma {:induction false} TrimStartSpec(s: string)
    ensures var r := TrimStart(s);
      |r| <= |s| && r == s[|s| - |r|..] &&
      (forall i :: 0 <= i < |s| - |r| ==> IsSpace(s[i])) &&
      (r == [] || !IsSpace(r[0]))
  {
    if |s| > 0 && IsSpace(s[0]) {
      TrimStartSpec(s[1..]);
    }
  }

  /** TrimEnd removes a suffix made only of white space, and what is left
      does not end with white space. */
  lemma {:induction false} TrimEndSpec(s: string)
    ensures var r := TrimEnd(s);
      |r| <= |s| && r == s[..|r|] &&
      (forall i :: |r| <= i < |s| ==> IsSpace(s[i])) &&
      (r == [] || !IsSpace(r[|r| - 1]))
  {
    if |s| > 0 && IsSpace(s[|s| - 1]) {
      TrimEndSpec(s[..|s| - 1]);
    }
  }

  /** Stripping leaves text with no white space at either end, and leaves
      nothing exactly when the text is all white space. */
  lemma StripSpec(s: string)
    ensures var r := Strip(s);
      (r == [] || (!IsSpace(r[0]) && !IsSpace(r[|r| - 1]))) &&
      (r == [] <==> forall i :: 0 <= i < |s| ==> IsSpace(s[i]))
  {
    TrimStartSpec(s);
    var t := TrimStart(s);
    TrimEndSpec(t);
    if t != [] {
      assert TrimEnd(t) != [] by {
        assert !IsSpace(t[0]);
      }
    }
  }

  /** A base-10 digit group as `int()` accepts it: a digit, followed by
      digits, where a single underscore may stand between two digits. */
  predicate IsDigitGroup(s: string)
  {
    |s| > 0 && IsDigit(s[|s| - 1]) &&
    (|s| == 1 || IsDigitGroup(s[..|s| - 1]) ||
     (|s| >= 3 && s[|s| - 2] == '_' && IsDigitGroup(s[..|s| - 2])))
  }

  /** The number a digit group denotes; underscores carry no value. */
  function DigitsValue(s: string): nat
  {
    if s == [] then 0
    else if IsDigit(s[|s| - 1]) then DigitsValue(s[..|s| - 1]) * 10 + (s[|s| - 1] - '0') as int
    else DigitsValue(s[..|s| - 1])
  }

  /** `int(s)` in base 10: `None` is the `ValueError` the program catches. */
  function ParseInt(s: string): Option<int>
  {
    var t := Strip(s);
    if |t| > 0 && (t[0] == '-' || t[0] == '+') then
      if IsDigitGroup(t[1..]) then
        var magnitude: int := DigitsValue(t[1..]);
        Some(if t[0] == '-' then -magnitude else magnitude)
      else None
    else if IsDigitGroup(t) then Some(DigitsValue(t))
    else None
  }

  function DigitChar(d: nat): (c: char)
    requires d < 10
    ensures IsDigit(c) && (c - '0') as int == d
  {
    ('0' as int + d) as char
  }

  /** `str(n)` for a natural number: its shortest decimal digits. */
  function FormatNat(n: nat): (s: string)
    ensures |s| > 0 && forall i :: 0 <= i < |s| ==> IsDigit(s[i])
    ensures |s| > 1 ==> s[0] != '0'
  {
    if n < 10 then [DigitChar(n)] else FormatNat(n / 10) + [DigitChar(n % 10)]
  }

  /** `str(n)` */
  function FormatInt(n: int): (s: string)
    ensures |s| > 0 && (s[0] == '-' <==> n < 0)
  {
    if n < 0 then "-" + FormatNat(-n) else FormatNat(n)
  }

  lemma {:induction false} FormatNatValue(n: nat)
    ensures IsDigitGroup(FormatNat(n)) && DigitsValue(FormatNat(n)) == n
  {
    var s := FormatNat(n);
    if n >= 10 {
      FormatNatValue(n / 10);
      assert s[..|s| - 1] == FormatNat(n / 10);
    }
  }

  /** Digits are not white space. */
  lemma DigitNotSpace(c: char)
    requires IsDigit(c)
    ensures !IsSpace(c)
  {
  }

  /** Text with no white space at either end is its own strip. */
  lemma StripUnpadded(s: string)
    requires s != [] && !IsSpace(s[0]) && !IsSpace(s[|s| - 1])
    ensures Strip(s) == s
  {
  }

  lemma ParseIntRejectsWord()
    ensures ParseInt("a") == None
  {
  }

  lemma ParseIntRejectsBlank(s: string)
    requires AllSpace(s)
    ensures ParseInt(s) == None
  {
    StripSpec(s);
  }

  predicate AllSpace(s: string)
  {
    forall i :: 0 <= i < |s| ==> IsSpace(s[i])
  }

  /** Leading white space in front of any text is dropped by TrimStart. */
  lemma {:induction false} TrimStartSkipsSpace(a: string, x: string)
    requires AllSpace(a)
    ensures TrimStart(a + x) == TrimStart(x)
    decreases |a|
  {
    if a != [] {
      assert (a + x)[0] == a[0] && (a + x)[1..] == a[1..] + x;
      TrimStartSkipsSpace(a[1..], x);
    } else {
      assert a + x == x;
    }
  }

  /** Trailing white space after any text is dropped by TrimEnd. */
  lemma {:induction false} TrimEndSkipsSpace(x: string, b: string)
    requires AllSpace(b)
    ensures TrimEnd(x + b) == TrimEnd(x)
    decreases |b|
  {
    if b != [] {
      var n := |x + b|;
      assert (x + b)[n - 1] == b[|b| - 1] && (x + b)[..n - 1] == x + b[..|b| - 1];
      TrimEndSkipsSpace(x, b[..|b| - 1]);
    } else {
      assert x + b == x;
    }
  }

  /** TrimStart works on the front only: what follows is kept, unless the
      text trimmed away entirely. */
  lemma {:induction false} TrimStartAppend(s: string, b: string)
    ensures TrimStart(s) != [] ==> TrimStart(s + b) == TrimStart(s) + b
    ensures TrimStart(s) == [] ==> TrimStart(s + b) == TrimStart(b)
    decreases |s|
  {
    if s == [] {
      assert s + b == b;
    } else {
      assert (s + b)[0] == s[0] && (s + b)[1..] == s[1..] + b;
      if IsSpace(s[0]) {
        TrimStartAppend(s[1..], b);
      }
    }
  }

  /** White space around the text does not change its strip. */
  lemma StripSkipsPadding(a: string, s: string, b: string)
    requires AllSpace(a) && AllSpace(b)
    ensures Strip(a + s + b) == Strip(s)
  {
    assert a + s + b == a + (s + b);
    TrimStartSkipsSpace(a, s + b);
    TrimStartAppend(s, b);
    if TrimStart(s) != [] {
      TrimEndSkipsSpace(TrimStart(s), b);
    } else {
      TrimStartSkipsSpace(b, []);
      assert b + [] == b;
    }
  }

  /** `int()` ignores white space around the number, whatever the text. */
  lemma ParseIntIgnoresPadding(a: string, s: string, b: string)
    requires AllSpace(a) && AllSpace(b)
    ensures ParseInt(a + s + b) == ParseInt(s)
  {
    StripSkipsPadding(a, s, b);
  }

  /** A digit group starts with a digit, so it is never taken for a sign. */
  lemma {:induction false} DigitGroupStart(s: string)
    requires IsDigitGroup(s)
    ensures IsDigit(s[0])
  {
    if |s| > 1 {
      if IsDigitGroup(s[..|s| - 1]) {
        DigitGroupStart(s[..|s| - 1]);
      } else {
        DigitGroupStart(s[..|s| - 2]);
      }
    }
  }

  /** A digit group is read as its value. */
  lemma ParseIntDigits(digits: string)
    requires IsDigitGroup(digits)
    ensures ParseInt(digits) == Some(DigitsValue(digits))
  {
    DigitGroupStart(digits);
    DigitNotSpace(digits[0]);
    DigitNotSpace(digits[|digits| - 1]);
    StripUnpadded(digits);
  }

  /** A digit group after a minus sign is read as its negated value. */
  lemma ParseIntNegative(digits: string)
    requires IsDigitGroup(digits)
    ensures ParseInt("-" + digits) == Some(-(DigitsValue(digits) as int))
  {
    var s := "-" + digits;
    assert s[|s| - 1] == digits[|digits| - 1];
    DigitNotSpace(digits[|digits| - 1]);
    StripUnpadded(s);
    assert s[1..] == digits;
  }

  /** A digit group after a plus sign is read as its value. */
  lemma ParseIntPositive(digits: string)
    requires IsDigitGroup(digits)
    ensures ParseInt("+" + digits) == Some(DigitsValue(digits))
  {
    var s := "+" + digits;
    assert s[|s| - 1] == digits[|digits| - 1];
    DigitNotSpace(digits[|digits| - 1]);
    StripUnpadded(s);
    assert s[1..] == digits;
  }

  /** Underscores between digits are accepted and carry no value. */
  lemma DigitGroupUnderscore()
    ensures IsDigitGroup("1_000") && DigitsValue("1_000") == 1000
  {
    assert "1_000"[..4] == "1_00";
    assert "1_00"[..3] == "1_0";
    assert "1_0"[..2] == "1_";
    assert "1_0"[..1] == "1";
    assert "1_"[..1] == "1";
  }

  /** An underscore at `i` is followed by a digit. */
  predicate UnderscoreBeforeDigit(s: string, i: int)
    requires 0 <= i < |s| - 1
  {
    s[i] == '_' ==> IsDigit(s[i + 1])
  }

  /** The shape of a digit group spelled out: digits and underscores only,
      a digit at each end, and a digit after every underscore. */
  predicate DigitGroupShaped(s: string)
  {
    |s| > 0 && IsDigit(s[0]) && IsDigit(s[|s| - 1]) &&
    (forall i :: 0 <= i < |s| ==> IsDigit(s[i]) || s[i] == '_') &&
    (forall i :: 0 <= i < |s| - 1 ==> UnderscoreBeforeDigit(s, i))
  }

  /** `int()` accepts exactly those digit groups: no leading, trailing or
      doubled underscore, and nothing but digits and underscores. */
  lemma {:induction false} DigitGroupShape(s: string)
    ensures IsDigitGroup(s) <==> DigitGroupShaped(s)
    decreases |s|
  {
    if |s| > 1 {
      var p := s[..|s| - 1];
      DigitGroupShape(p);
      if |s| >= 3 {
        DigitGroupShape(s[..|s| - 2]);
      }
      if IsDigitGroup(s) {
        DigitGroupStart(s);
        if IsDigitGroup(p) {
          forall i | 0 <= i < |s| - 1
            ensures UnderscoreBeforeDigit(s, i)
          {
            if i < |p| - 1 {
              assert UnderscoreBeforeDigit(p, i);
            }
          }
        } else {
          var q := s[..|s| - 2];
          forall i | 0 <= i < |s| - 1
            ensures UnderscoreBeforeDigit(s, i)
          {
            if i < |q| - 1 {
              assert UnderscoreBeforeDigit(q, i);
            }
          }
        }
      }
      if DigitGroupShaped(s) {
        if IsDigit(s[|s| - 2]) {
          forall i | 0 <= i < |p| - 1
            ensures UnderscoreBeforeDigit(p, i)
          {
            assert UnderscoreBeforeDigit(s, i);
          }
          assert DigitGroupShaped(p);
        } else {
          assert UnderscoreBeforeDigit(s, |s| - 3);
          var q := s[..|s| - 2];
          forall i | 0 <= i < |q| - 1
            ensures UnderscoreBeforeDigit(q, i)
          {
            assert UnderscoreBeforeDigit(s, i);
          }
          assert DigitGroupShaped(q);
        }
      }
    }
  }

  /** What the program prints for a number reads back as that number. */
  lemma ParseFormatRoundTrip(n: int)
    ensures ParseInt(FormatInt(n)) == Some(n)
  {
    var m: nat := if n < 0 then -n else n;
    var digits := FormatNat(m);
    FormatNatValue(m);
    if n < 0 {
      ParseIntNegative(digits);
      assert FormatInt(n) == "-" + digits;
    } else {
      ParseIntDigits(digits);
      assert FormatInt(n) == digits;
    }
  }
}
