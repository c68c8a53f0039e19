/** Character classes, Python's `str.strip()`, and decimal numerals
    (`int(digits)` and the zero-padded `{n:0Wd}` format) as used by the
    journal entry form. */
module Text {

  /** A character Python's `str.isspace()` accepts, the ones `str.strip()`
      removes: the ASCII controls 09-0D and 1C-1F, the space, 85, A0, 1680,
      2000-200A, 2028, 2029, 202F, 205F and 3000. */
  predicate IsSpace(c: char) {
    || ('\t' <= c <= '\r') || ('\U{1C}' <= c <= ' ')
    || c == '\U{85}' || c == '\U{A0}' || c == '\U{1680}'
    || ('\U{2000}' <= c <= '\U{200A}') || c == '\U{2028}' || c == '\U{2029}'
    || c == '\U{202F}' || c == '\U{205F}' || c == '\U{3000}'
  }

  /** ASCII decimal digit (`str.isdigit()` restricted to ASCII). */
  predicate IsDigit(c: char) {
    '0' <= c <= '9'
  }

  /** ASCII letter (`str.isalpha()` restricted to ASCII). */
  predicate IsAlpha(c: char) {
    ('a' <= c <= 'z') || ('A' <= c <= 'Z')
  }

  predicate Blank(s: string) {
    forall i :: 0 <= i < |s| ==> IsSpace(s[i])
  }

  predicate AllDigits(s: string) {
    forall i :: 0 <= i < |s| ==> IsDigit(s[i])
  }

  function TrimStart(s: string): string {
    if s != [] && IsSpace(s[0]) then TrimStart(s[1..]) else s
  }

  function TrimEnd(s: string): string {
    if s != [] && IsSpace(s[|s| - 1]) then TrimEnd(s[..|s| - 1]) else s
  }

  /** `s.strip()`: drops leading and trailing whitespace. */
  function Strip(s: string): string {
    TrimEnd(TrimStart(s))
  }

  lemma {:induction false} TrimStartEnds(s: string)
    ensures TrimStart(s) != [] ==> !IsSpace(TrimStart(s)[0])
  {
    if s != [] && IsSpace(s[0]) {
      TrimStartEnds(s[1..]);
    }
  }

  lemma {:induction false} TrimEndEnds(s: string)
    ensures TrimEnd(s) != [] ==> !IsSpace(TrimEnd(s)[|TrimEnd(s)| - 1])
    ensures TrimEnd(s) != [] ==> TrimEnd(s)[0] == s[0]
  {
    if s != [] && IsSpace(s[|s| - 1]) {
      TrimEndEnds(s[..|s| - 1]);
    }
  }

  /** `s.strip()` is a slice of `s` with only whitespace before and after
      it, and neither of its ends is whitespace; so stripping twice changes
      nothing. */
  lemma StripEnds(s: string)
    ensures exists i, j :: 0 <= i <= j <= |s| && Strip(s) == s[i..j] && Blank(s[..i]) && Blank(s[j..])
    ensures Strip(s) != [] ==> !IsSpace(Strip(s)[0]) && !IsSpace(Strip(s)[|Strip(s)| - 1])
    ensures Strip(Strip(s)) == Strip(s)
  {
    TrimStartEnds(s);
    TrimEndEnds(TrimStart(s));
    var i := TrimStartSlice(s);
    var t := s[i..];
    var j := TrimEndSlice(t);
    assert Strip(s) == s[i..i + j];
    assert s[i + j..] == t[j..];
  }

  /** The whitespace `TrimStart` removes is a prefix of `s`. */
  lemma {:induction false} TrimStartSlice(s: string) returns (i: nat)
    ensures i <= |s| && TrimStart(s) == s[i..] && Blank(s[..i])
  {
    if s != [] && IsSpace(s[0]) {
      var k := TrimStartSlice(s[1..]);
      i := k + 1;
      assert s[1..][k..] == s[i..];
      forall m | 0 <= m < i ensures IsSpace(s[..i][m]) {
        if m > 0 { assert s[..i][m] == s[1..][..k][m - 1]; }
      }
    } else {
      i := 0;
    }
  }

  /** The whitespace `TrimEnd` removes is a suffix of `s`. */
  lemma {:induction false} TrimEndSlice(s: string) returns (j: nat)
    ensures j <= |s| && TrimEnd(s) == s[..j] && Blank(s[j..])
  {
    if s != [] && IsSpace(s[|s| - 1]) {
      var init := s[..|s| - 1];
      j := TrimEndSlice(init);
      assert init[..j] == s[..j];
      forall m | 0 <= m < |s| - j ensures IsSpace(s[j..][m]) {
        if j + m < |s| - 1 { assert s[j..][m] == init[j..][m]; }
      }
    } else {
      j := |s|;
    }
  }

  /** `s.strip() == ""` exactly when every character of `s` is whitespace. */
  lemma {:induction false} StripEmptyIffBlank(s: string)
    ensures Strip(s) == [] <==> Blank(s)
  {
    if s != [] && IsSpace(s[0]) {
      StripEmptyIffBlank(s[1..]);
      assert Blank(s) <==> Blank(s[1..]) by {
        if Blank(s[1..]) {
          forall k | 0 <= k < |s| ensures IsSpace(s[k]) {
            if k > 0 { assert s[k] == s[1..][k - 1]; }
          }
        }
        if Blank(s) {
          forall k | 0 <= k < |s[1..]| ensures IsSpace(s[1..][k]) {
            assert s[1..][k] == s[k + 1];
          }
        }
      }
    } else if s != [] {
      TrimEndNonEmpty(s);
    }
  }

  lemma {:induction false} TrimEndNonEmpty(s: string)
    requires s != [] && !IsSpace(s[0])
    ensures TrimEnd(s) != []
  {
    if IsSpace(s[|s| - 1]) {
      TrimEndNonEmpty(s[..|s| - 1]);
    }
  }

  /** Numeric value of an ASCII digit. */
  function DigitValue(c: char): (v: nat)
    requires IsDigit(c)
    ensures v < 10
  {
    c as int - '0' as int
  }

  function DigitChar(d: nat): (c: char)
    requires d < 10
    ensures IsDigit(c) && DigitValue(c) == d
  {
    ('0' as int + d) as char
  }

  /** `int(s)` for a string of ASCII digits (leading zeros allowed);
      the empty string has value 0. */
  function Parse(s: string): nat
    requires AllDigits(s)
  {
    if s == [] then 0 else Parse(s[..|s| - 1]) * 10 + DigitValue(s[|s| - 1])
  }

  /** The decimal numeral of `n`, without leading zeros (`str(n)`). */
  function Decimal(n: nat): (s: string)
    ensures AllDigits(s) && 1 <= |s|
    ensures |s| > 1 ==> s[0] != '0'
  {
    if n < 10 then [DigitChar(n)] else Decimal(n / 10) + [DigitChar(n % 10)]
  }

  function Zeros(k: nat): (s: string)
    ensures |s| == k && AllDigits(s)
  {
    if k == 0 then [] else Zeros(k - 1) + ['0']
  }

  /** `f"{n:0{width}d}"`: the numeral of `n`, left-padded with zeros to at
      least `width` characters. */
  function Padded(n: nat, width: nat): string {
    var s := Decimal(n);
    if |s| < width then Zeros(width - |s|) + s else s
  }

  /** `int(str(n)) == n`. */
  lemma {:induction false} ParseDecimal(n: nat)
    ensures Parse(Decimal(n)) == n
  {
    if n >= 10 {
      ParseDecimal(n / 10);
      var s := Decimal(n);
      assert s[..|s| - 1] == Decimal(n / 10);
    }
  }

  /** Leading zeros do not change the value of a numeral. */
  lemma {:induction false} ParseZeros(k: nat, s: string)
    requires AllDigits(s)
    ensures AllDigits(Zeros(k) + s) && Parse(Zeros(k) + s) == Parse(s)
  {
    var t := Zeros(k) + s;
    assert AllDigits(t) by {
      forall i | 0 <= i < |t| ensures IsDigit(t[i]) {
        if i < k { assert t[i] == Zeros(k)[i]; } else { assert t[i] == s[i - k]; }
      }
    }
    if s == [] {
      assert t == Zeros(k);
      ZerosValue(k);
    } else {
      ParseZeros(k, s[..|s| - 1]);
      assert t[..|t| - 1] == Zeros(k) + s[..|s| - 1];
    }
  }

  lemma {:induction false} ZerosValue(k: nat)
    ensures Parse(Zeros(k)) == 0
  {
    if k > 0 {
      ZerosValue(k - 1);
      assert Zeros(k)[..k - 1] == Zeros(k - 1);
    }
  }

  /** The padded numeral is all digits, exactly `width` long when the
      plain numeral is shorter and the plain numeral's length otherwise, and
      reads back as `n`. */
  lemma PaddedSpec(n: nat, width: nat)
    ensures AllDigits(Padded(n, width))
    ensures |Padded(n, width)| == if |Decimal(n)| < width then width else |Decimal(n)|
    ensures Parse(Padded(n, width)) == n
  {
    ParseDecimal(n);
    var s := Decimal(n);
    if |s| < width {
      ParseZeros(width - |s|, s);
    }
  }
}
