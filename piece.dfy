/** The piece (voucher) number that tags every line of one operation, and
    `piece_suivante`, which gives the number of the next operation. */
module Piece {

  import opened Text

  /** The ASCII digits of `p`, in order. */
  function Digits(p: string): (d: string)
    ensures AllDigits(d) && |d| <= |p|
  {
    if p == [] then []
    else if IsDigit(p[|p| - 1]) then Digits(p[..|p| - 1]) + [p[|p| - 1]]
    else Digits(p[..|p| - 1])
  }

  /** The ASCII letters of `p`, in order. */
  function Letters(p: string): (l: string)
    ensures |l| <= |p|
    ensures forall i :: 0 <= i < |l| ==> IsAlpha(l[i])
  {
    if p == [] then []
    else if IsAlpha(p[|p| - 1]) then Letters(p[..|p| - 1]) + [p[|p| - 1]]
    else Letters(p[..|p| - 1])
  }

  /** The prefix used when the current number holds no letter. */
  const DefaultPrefix := "OP"

  /** `piece_suivante(p)`: keep the letters of `p`, take the number its
      digits spell (none: 0), add one, and write it back zero-padded to six
      places after the letters, or to three places after "OP" when `p`
      holds no letter. Every other character of `p` is dropped. */
  function Next(p: string): string {
    var digits := Digits(p);
    var letters := Letters(p);
    var n := if digits != [] then Parse(digits) + 1 else 1;
    if letters != [] then letters + Padded(n, 6) else DefaultPrefix + Padded(n, 3)
  }

  /** The prefix of the next number: the letters of `p`, or "OP". */
  function NextPrefix(p: string): string {
    if Letters(p) != [] then Letters(p) else DefaultPrefix
  }

  /** The width the next number is padded to. */
  function NextWidth(p: string): nat {
    if Letters(p) != [] then 6 else 3
  }

  /** The digits of a concatenation are the digits of each part, in
      order. */
  lemma {:induction false} DigitsAppend(a: string, b: string)
    ensures Digits(a + b) == Digits(a) + Digits(b)
  {
    if b != [] {
      DigitsAppend(a, b[..|b| - 1]);
      assert (a + b)[..|a + b| - 1] == a + b[..|b| - 1];
    } else {
      assert a + b == a;
    }
  }

  /** The letters of a concatenation are the letters of each part, in
      order. */
  lemma {:induction false} LettersAppend(a: string, b: string)
    ensures Letters(a + b) == Letters(a) + Letters(b)
  {
    if b != [] {
      LettersAppend(a, b[..|b| - 1]);
      assert (a + b)[..|a + b| - 1] == a + b[..|b| - 1];
    } else {
      assert a + b == a;
    }
  }

  /** One character is kept as a digit exactly when it is one. */
  lemma DigitsSingle(c: char)
    ensures Digits([c]) == if IsDigit(c) then [c] else []
  {
    assert [c][..0] == [];
  }

  /** One character is kept as a letter exactly when it is one. */
  lemma LettersSingle(c: char)
    ensures Letters([c]) == if IsAlpha(c) then [c] else []
  {
    assert [c][..0] == [];
  }

  /** A numeral has no letters, and its digits are itself. */
  lemma {:induction false} NumeralParts(s: string)
    requires AllDigits(s)
    ensures Digits(s) == s && Letters(s) == []
  {
    if s != [] {
      NumeralParts(s[..|s| - 1]);
      assert s[..|s| - 1] + [s[|s| - 1]] == s;
    }
  }

  /** A string of letters has no digits, and its letters are itself. */
  lemma {:induction false} WordParts(s: string)
    requires forall i :: 0 <= i < |s| ==> IsAlpha(s[i])
    ensures Digits(s) == [] && Letters(s) == s
  {
    if s != [] {
      WordParts(s[..|s| - 1]);
      assert s[..|s| - 1] + [s[|s| - 1]] == s;
    }
  }

  /** The next number is its prefix followed by its digits and nothing
      else: the prefix is the letters of `p` (or "OP" when there are none),
      the digits spell one more than the digits of `p` did (counting no
      digits as 0), and they take exactly six places after letters and three
      after "OP", or the plain numeral's length when that is longer. */
  lemma NextSpec(p: string)
    ensures Next(p) == Letters(Next(p)) + Digits(Next(p))
    ensures Letters(Next(p)) == NextPrefix(p)
    ensures Parse(Digits(Next(p))) == Parse(Digits(p)) + 1
    ensures var numeral := Decimal(Parse(Digits(p)) + 1);
      |Digits(Next(p))| == if |numeral| < NextWidth(p) then NextWidth(p) else |numeral|
  {
    NextParts(p);
    PaddedSpec(Parse(Digits(p)) + 1, NextWidth(p));
  }

  /** The digits of the next number spell one more than those of `p`. */
  lemma NextCounts(p: string)
    ensures Parse(Digits(Next(p))) == Parse(Digits(p)) + 1
  {
    NextParts(p);
    PaddedSpec(Parse(Digits(p)) + 1, NextWidth(p));
  }

  lemma NextParts(p: string)
    ensures Digits(Next(p)) == Padded(Parse(Digits(p)) + 1, NextWidth(p))
    ensures Letters(Next(p)) == NextPrefix(p)
    ensures Next(p) == NextPrefix(p) + Padded(Parse(Digits(p)) + 1, NextWidth(p))
  {
    var n := if Digits(p) != [] then Parse(Digits(p)) + 1 else 1;
    assert n == Parse(Digits(p)) + 1 by {
      if Digits(p) == [] {
        assert Parse(Digits(p)) == 0;
      }
    }
    var pre, num := NextPrefix(p), Padded(n, NextWidth(p));
    assert Next(p) == pre + num;
    PaddedSpec(n, NextWidth(p));
    NumeralParts(num);
    WordParts(pre);
    DigitsAppend(pre, num);
    LettersAppend(pre, num);
  }

  /** Once a number holds letters, the next one keeps exactly those
      letters; a number without letters gets the "OP" prefix. */
  lemma NextKeepsPrefix(p: string)
    ensures Letters(p) != [] ==> Letters(Next(p)) == Letters(p)
    ensures Letters(p) == [] ==> Letters(Next(p)) == DefaultPrefix
    ensures Letters(Next(Next(p))) == Letters(Next(p))
  {
    NextSpec(p);
    NextSpec(Next(p));
  }

  /** `f` applied `k` times to `p`. */
  function Iterate(f: string -> string, p: string, k: nat): string {
    if k == 0 then p else f(Iterate(f, p, k - 1))
  }

  /** The number the digits of `s` spell. */
  function Count(s: string): nat {
    Parse(Digits(s))
  }

  /** A step that adds one to the count, taken `k` times, adds `k`. */
  lemma {:induction false} IterateCounts(f: string -> string, p: string, k: nat)
    requires forall q :: Count(f(q)) == Count(q) + 1
    ensures Count(Iterate(f, p, k)) == Count(p) + k
  {
    if k > 0 {
      IterateCounts(f, p, k - 1);
    }
  }

  /** The piece number after `k` recorded operations, starting from `p`. */
  function After(p: string, k: nat): string {
    Iterate(Next, p, k)
  }

  /** Each recorded operation adds one to the number the digits spell. */
  lemma AfterCounts(p: string, k: nat)
    ensures Count(After(p, k)) == Count(p) + k
  {
    forall q ensures Count(Next(q)) == Count(q) + 1 {
      NextCounts(q);
    }
    IterateCounts(Next, p, k);
  }

  /** Operations recorded one after another, with no edit of the number in
      between, never share a piece number. */
  lemma AfterDistinct(p: string, j: nat, k: nat)
    requires j < k
    ensures After(p, j) != After(p, k)
  {
    AfterCounts(p, j);
    AfterCounts(p, k);
  }

  /** A character that is neither a letter nor a digit makes no difference
      to the next number. */
  lemma NextIgnoresOthers(before: string, c: char, after: string)
    requires !IsDigit(c) && !IsAlpha(c)
    ensures Next(before + [c] + after) == Next(before + after)
  {
    assert Digits([c]) == [] && Letters([c]) == [] by {
      assert [c][..0] == [];
    }
    DigitsAppend(before, [c]);
    LettersAppend(before, [c]);
    DigitsAppend(before + [c], after);
    LettersAppend(before + [c], after);
    DigitsAppend(before, after);
    LettersAppend(before, after);
  }

  /** The first number of an empty session field: no digits count as 0,
      so the next number is 1 written after "OP" on three places. */
  lemma ExampleEmpty()
    ensures Next("") == "OP001"
  {
    assert Padded(1, 3) == "001" by {
      assert Decimal(1) == "1";
      assert Zeros(2) == "00";
    }
  }

  /** The session's first number has letters, so the one after it is
      written on six places. */
  lemma ExampleWithLetters(p: string)
    requires p == "OP001"
    ensures Next(p) == "OP000002"
  {
    FirstPieceParts(p);
    NextParts(p);
    assert Padded(2, 6) == "000002" by {
      assert Zeros(5) == "00000";
    }
    assert "OP" + "000002" == "OP000002";
  }

  /** "OP001" splits into the letters "OP" and the digits "001", worth 1. */
  lemma FirstPieceParts(p: string)
    requires p == "OP001"
    ensures Digits(p) == "001" && Letters(p) == "OP" && Parse(Digits(p)) == 1
  {
    assert Digits(p) == "001" && Letters(p) == "OP" by {
      assert p == "OP" + "001";
      WordParts("OP");
      NumeralParts("001");
      DigitsAppend("OP", "001");
      LettersAppend("OP", "001");
    }
    assert Parse("001") == 1 by {
      assert "001"[..2] == "00" && "00"[..1] == "0" && "0"[..0] == "";
    }
  }

  /** Digits alone get the "OP" prefix and three places. */
  lemma ExampleDigitsOnly(p: string)
    requires p == "123"
    ensures Next(p) == "OP124"
  {
    DigitsOnlyParts(p);
    NextParts(p);
    assert Padded(124, 3) == "124" by {
      assert Decimal(12) == "12";
    }
    assert DefaultPrefix + "124" == "OP124";
  }

  /** "123" has no letters, and its digits are itself, worth 123. */
  lemma DigitsOnlyParts(p: string)
    requires p == "123"
    ensures Digits(p) == "123" && Letters(p) == [] && Parse(Digits(p)) == 123
  {
    NumeralParts(p);
    assert Parse(p) == 123 by {
      assert p[..2] == "12" && "12"[..1] == "1" && "1"[..0] == "";
    }
  }

  /** Characters other than letters and digits are dropped. */
  lemma ExampleOtherCharacters(p: string)
    requires p == "A-7"
    ensures Next(p) == "A000008"
  {
    MixedParts(p);
    NextParts(p);
    assert Padded(8, 6) == "000008" by {
      assert Zeros(5) == "00000";
    }
    assert "A" + "000008" == "A000008";
  }

  /** "A-7" splits into the letter "A" and the digit "7"; "-" is neither. */
  lemma MixedParts(p: string)
    requires p == "A-7"
    ensures Digits(p) == "7" && Letters(p) == "A" && Parse(Digits(p)) == 7
  {
    assert Digits(p) == "7" && Letters(p) == "A" by {
      assert p == "A-" + "7" && "A-" == "A" + "-";
      assert Digits("-") == [] && Letters("-") == [] by {
        assert "-"[..0] == [];
      }
      WordParts("A");
      NumeralParts("7");
      DigitsAppend("A", "-");
      LettersAppend("A", "-");
      DigitsAppend("A-", "7");
      LettersAppend("A-", "7");
    }
    assert Parse("7") == 7 by {
      assert "7"[..0] == "";
    }
  }
}
