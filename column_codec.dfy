/**
 * Column letters and their ordinals: ActionChain.str2count and ActionChain.count2str.
 *
 * str2count weights the character i positions from the right with 26^i and values each
 * character by its code point minus 64, so 'A' is 1, 'Z' is 26 and '@' is 0.
 * count2str is a greedy loop; it agrees with bijective base 26 up to "ZZ" (702) and can
 * emit the digit '@' for longer results.  BijectiveEncode is the encoding it was meant to be.
 */
module ColumnCodec {
  import opened Errors

  /** 26 ** k */
  function Pow26(k: nat): (p: nat)
    ensures p >= 1
  {
    if k == 0 then 1 else 26 * Pow26(k - 1)
  }

  /** sum(26 ** a for a in range(m + 1)): the ordinal of the column "A" * (m + 1). */
  function PowSum(m: nat): (s: nat)
    ensures s >= 1
    ensures m > 0 ==> s > Pow26(m)
  {
    if m == 0 then 1 else PowSum(m - 1) + Pow26(m)
  }

  /** ord(ch) - 64 */
  function LetterValue(ch: char): int {
    ch as int - 64
  }

  /** chr(value + 64), for the codes below the surrogate range (count2str passes only -64..26). */
  function Chr(value: int): (ch: char)
    requires -64 <= value < 0xD800 - 64
    ensures LetterValue(ch) == value
  {
    (value + 64) as char
  }

  predicate IsUpper(ch: char) {
    'A' <= ch <= 'Z'
  }

  /** The regular expression [A-Z]+ matched against the whole of s. */
  predicate Letters(s: string) {
    |s| > 0 && forall i :: 0 <= i < |s| ==> IsUpper(s[i])
  }

  /** str2count: the character k positions from the right is worth 26^k * (ord - 64). */
  function Str2Count(s: string): int {
    if s == [] then 0 else Pow26(|s| - 1) * LetterValue(s[0]) + Str2Count(s[1..])
  }

  // ---------------------------------------------------------------------------
  // Properties of str2count
  // ---------------------------------------------------------------------------

  lemma MulBounds(p: nat, v: int)
    requires 1 <= v <= 26
    ensures p <= p * v <= 26 * p
  {
  }

  /** Horner's form of the sum: appending a character shifts the value by one digit. */
  lemma {:induction false} Str2CountAppend(s: string, ch: char)
    ensures Str2Count(s + [ch]) == 26 * Str2Count(s) + LetterValue(ch)
  {
    if s != [] {
      var t := s + [ch];
      assert t[0] == s[0] && t[1..] == s[1..] + [ch];
      Str2CountAppend(s[1..], ch);
      calc {
        Str2Count(t);
        Pow26(|s|) * LetterValue(s[0]) + Str2Count(s[1..] + [ch]);
        26 * Pow26(|s| - 1) * LetterValue(s[0]) + 26 * Str2Count(s[1..]) + LetterValue(ch);
        26 * Str2Count(s) + LetterValue(ch);
      }
    }
  }

  /** A name of L upper-case letters denotes an ordinal from "A"*L up to "Z"*L. */
  lemma {:induction false} Str2CountRange(s: string)
    requires Letters(s)
    ensures PowSum(|s| - 1) <= Str2Count(s) < PowSum(|s|)
  {
    var v := LetterValue(s[0]);
    MulBounds(Pow26(|s| - 1), v);
    if |s| > 1 {
      assert Letters(s[1..]) by {
        forall i | 0 <= i < |s[1..]| ensures IsUpper(s[1..][i]) {
          assert s[1..][i] == s[i + 1];
        }
      }
      Str2CountRange(s[1..]);
    }
  }

  lemma Str2CountExamples()
    ensures Str2Count("") == 0 && Str2Count("A") == 1 && Str2Count("Z") == 26
    ensures Str2Count("AA") == 27 && Str2Count("AZ") == 52 && Str2Count("BA") == 53
    ensures Str2Count("ZZ") == 702 && Str2Count("AAA") == 703
    ensures Str2Count("@") == 0 && Str2Count("B@Z") == 1378 && Str2Count("AZZ") == 1378
  {
  }

  // ---------------------------------------------------------------------------
  // count2str as written
  // ---------------------------------------------------------------------------

  /** The largest j in 0..top with p * j < c, or 0 when there is none. */
  function LargestDigit(p: nat, c: int, top: nat): (j: nat)
    requires p >= 1
    ensures j <= top
    ensures j == 0 || p * j < c
    ensures j == top || p * (j + 1) >= c
  {
    if top == 0 then 0 else if p * top < c then top else LargestDigit(p, c, top - 1)
  }

  lemma MulMono(p: nat, a: nat, b: nat)
    requires a <= b
    ensures p * a <= p * b
  {
  }

  /** The three conditions above pick out one digit. */
  lemma DigitUnique(p: nat, c: int, top: nat, j: nat)
    requires p >= 1
    requires j <= top && (j == 0 || p * j < c) && (j == top || p * (j + 1) >= c)
    ensures j == LargestDigit(p, c, top)
  {
    var r := LargestDigit(p, c, top);
    if j < r {
      MulMono(p, j + 1, r);
    }
  }

  /** The first loop of count2str, started at i. */
  function WidthFrom(c: int, i: nat): (w: nat)
    requires i == 0 || PowSum(i) <= c
    ensures i <= w && PowSum(w + 1) > c && (w == 0 || PowSum(w) <= c)
    decreases c - PowSum(i)
  {
    if PowSum(i + 1) <= c then WidthFrom(c, i + 1) else i
  }

  /** One less than the number of characters count2str emits for c. */
  function Width(c: int): (w: nat)
    ensures PowSum(w + 1) > c && (w == 0 || PowSum(w) <= c)
  {
    WidthFrom(c, 0)
  }

  lemma {:induction false} PowSumStrictlyMonotone(a: nat, b: nat)
    requires a < b
    ensures PowSum(a) < PowSum(b)
  {
    if a < b - 1 {
      PowSumStrictlyMonotone(a, b - 1);
    }
  }

  /** The width is the only w with PowSum(w) <= c < PowSum(w + 1). */
  lemma WidthUnique(c: int, w: nat)
    requires PowSum(w + 1) > c && (w == 0 || PowSum(w) <= c)
    ensures w == Width(c)
  {
    var v := Width(c);
    if w < v {
      if w + 1 < v {
        PowSumStrictlyMonotone(w + 1, v);
      }
    } else if v < w {
      if v + 1 < w {
        PowSumStrictlyMonotone(v + 1, w);
      }
    }
  }

  /** After the digit of weight 26^k is taken from c, what is left fits in k digits. */
  lemma RemainderInRange(k: nat, c: int)
    requires k >= 1 && -64 <= c < PowSum(k + 1)
    ensures var j := LargestDigit(Pow26(k), c, 26);
      && -64 <= c - Pow26(k) * j < PowSum(k)
      && (c >= 1 ==> c - Pow26(k) * j >= 1)
      && (c <= 0 ==> j == 0)
  {
    var p := Pow26(k);
    var j := LargestDigit(p, c, 26);
    assert PowSum(k + 1) == PowSum(k) + 26 * p;
    if j == 0 {
      assert p * j == 0;
    } else {
      MulBounds(p, j);
      if j < 26 {
        assert p * (j + 1) == p * j + p;
      } else {
        assert p * j == 26 * p;
      }
    }
  }

  /**
   * One turn of count2str's digit loop: emitting the digit j and subtracting x = 26^k * j
   * leaves the characters still to come unchanged.
   */
  lemma EmitDigit(chars: string, k: nat, c: int, j: nat, x: int)
    requires k >= 1 && -64 <= c < PowSum(k + 1)
    requires j == LargestDigit(Pow26(k), c, 26) && x == Pow26(k) * j
    ensures -64 <= c - x < PowSum(k)
    ensures chars + Greedy(k, c) == (chars + [Chr(j)]) + Greedy(k - 1, c - x)
  {
    RemainderInRange(k, c);
    assert Greedy(k, c) == [Chr(j)] + Greedy(k - 1, c - x);
  }

  /** The characters count2str emits for digit positions k down to 0, given remainder c. */
  function Greedy(k: nat, c: int): (s: string)
    requires -64 <= c < PowSum(k + 1)
    ensures |s| == k + 1
  {
    if k == 0 then [Chr(c)]
    else
      var j := LargestDigit(Pow26(k), c, 26);
      RemainderInRange(k, c);
      [Chr(j)] + Greedy(k - 1, c - Pow26(k) * j)
  }

  /** count2str(count), or the ValueError chr() raises when count + 64 is negative. */
  function Encode(count: int): (r: Result<string>)
    ensures r.Err? <==> count < -64
    ensures r.Ok? ==> |r.value| == Width(count) + 1
  {
    if count < -64 then Err(ChrArgumentOutOfRange(count + 64))
    else Ok(Greedy(Width(count), count))
  }

  /**
   * The first loop of count2str: the smallest i with sum(26 ** a for a in range(i + 2)) > c,
   * i.e. one less than the number of characters to emit.
   */
  method CountWidth(c: int) returns (i: nat)
    ensures i == Width(c)
  {
    i := 0;
    while PowSum(i + 1) <= c
      invariant i == 0 || PowSum(i) <= c
      decreases c - PowSum(i)
    {
      i := i + 1;
    }
    WidthUnique(c, i);
  }

  /**
   * The inner loop of count2str: with p = 26 ** k, j is the largest digit in 0..26 with
   * p * j < c and x is p * j.
   */
  method DigitBelow(p: nat, c: int) returns (j: nat, x: int)
    requires p >= 1
    ensures j == LargestDigit(p, c, 26) && x == p * j
  {
    x, j := 0, 0;
    while j < 26
      invariant 0 <= j <= 26 && x == p * j
      invariant j == 0 || p * j < c
    {
      j := j + 1;
      if p * j >= c {
        j := j - 1;
        break;
      }
      x := p * j;
    }
    DigitUnique(p, c, 26, j);
  }

  /**
   * What count2str returns once it has emitted chars and has k digit positions left for
   * the remainder c: the accumulating form of Greedy.
   */
  function GreedyFrom(chars: string, k: nat, c: int): (s: string)
    requires -64 <= c < PowSum(k + 1)
    decreases k
  {
    if k == 0 then chars + [Chr(c)]
    else
      var j := LargestDigit(Pow26(k), c, 26);
      RemainderInRange(k, c);
      GreedyFrom(chars + [Chr(j)], k - 1, c - Pow26(k) * j)
  }

  lemma {:induction false} GreedyFromGreedy(chars: string, k: nat, c: int)
    requires -64 <= c < PowSum(k + 1)
    ensures GreedyFrom(chars, k, c) == chars + Greedy(k, c)
    decreases k
  {
    if k > 0 {
      var j := LargestDigit(Pow26(k), c, 26);
      RemainderInRange(k, c);
      var x := Pow26(k) * j;
      GreedyFromGreedy(chars + [Chr(j)], k - 1, c - x);
      EmitDigit(chars, k, c, j, x);
    }
  }

  /**
   * The digit loop of count2str: for k = i down to 1 it appends the letter of the largest
   * digit j with 26 ** k * j < c and takes 26 ** k * j from c. Below -64 the width is 0
   * and the loop does not run.
   */
  method EmitDigits(count: int, i: nat) returns (chars: string, c: int)
    requires i == Width(count)
    ensures count < -64 ==> chars == [] && c == count
    ensures count >= -64 ==> -64 <= c < PowSum(1) && chars + [Chr(c)] == Greedy(i, count)
  {
    chars, c := [], count;
    if count < -64 {
      WidthUnique(count, 0);
    }
    var k: nat := i;
    while k > 0
      invariant k <= i
      invariant count < -64 ==> k == 0 && chars == [] && c == count
      invariant count >= -64 ==> -64 <= c < PowSum(k + 1)
      invariant count >= -64 ==> GreedyFrom(chars, k, c) == GreedyFrom([], i, count)
    {
      var p := Pow26(k);
      var j, x := DigitBelow(p, c);
      RemainderInRange(k, c);
      c := c - x;
      chars := chars + [Chr(j)];
      k := k - 1;
    }
    if count >= -64 {
      GreedyFromGreedy([], i, count);
    }
  }

  /** ActionChain.count2str: the width, the digits, then chr of what is left. */
  method Count2Str(count: int) returns (r: Result<string>)
    ensures r == Encode(count)
  {
    var i := CountWidth(count);
    var chars, c := EmitDigits(count, i);
    if c + 64 < 0 {
      r := Err(ChrArgumentOutOfRange(c + 64));
    } else {
      r := Ok(chars + [Chr(c)]);
    }
  }

  // ---------------------------------------------------------------------------
  // Properties of count2str
  // ---------------------------------------------------------------------------

  lemma {:induction false} GreedyValue(k: nat, c: int)
    requires -64 <= c < PowSum(k + 1)
    ensures Str2Count(Greedy(k, c)) == c
  {
    if k > 0 {
      var j := LargestDigit(Pow26(k), c, 26);
      RemainderInRange(k, c);
      var s := Greedy(k, c);
      assert s[0] == Chr(j) && s[1..] == Greedy(k - 1, c - Pow26(k) * j);
      GreedyValue(k - 1, c - Pow26(k) * j);
    }
  }

  /** str2count(count2str(n)) == n wherever count2str returns. */
  lemma Count2StrNumericRoundTrip(n: int)
    requires n >= -64
    ensures Encode(n).Ok? && Str2Count(Encode(n).value) == n
  {
    GreedyValue(Width(n), n);
  }

  lemma {:induction false} GreedyAlphabet(k: nat, c: int)
    requires 1 <= c < PowSum(k + 1)
    ensures var s := Greedy(k, c);
      && IsUpper(s[k])
      && forall i :: 0 <= i <= k ==> '@' <= s[i] <= 'Z'
  {
    if k > 0 {
      var j := LargestDigit(Pow26(k), c, 26);
      RemainderInRange(k, c);
      var rest := c - Pow26(k) * j;
      GreedyAlphabet(k - 1, rest);
      var s, t := Greedy(k, c), Greedy(k - 1, rest);
      assert s == [Chr(j)] + t;
      assert '@' <= s[0] <= 'Z';
      forall i | 1 <= i <= k ensures s[i] == t[i - 1] {
      }
    }
  }

  /**
   * For n >= 1 count2str emits only '@'..'Z', and its first and last characters are
   * real letters; with PowSum(|s| - 1) <= n it has exactly as many characters as the
   * bijective base-26 name of n.
   */
  lemma Count2StrAlphabet(n: int)
    requires n >= 1
    ensures var s := Encode(n).value;
      && |s| >= 1 && IsUpper(s[0]) && IsUpper(s[|s| - 1])
      && (forall i :: 0 <= i < |s| ==> '@' <= s[i] <= 'Z')
      && PowSum(|s| - 1) <= n < PowSum(|s|)
  {
    var w := Width(n);
    GreedyAlphabet(w, n);
    if w > 0 {
      var j := LargestDigit(Pow26(w), n, 26);
      assert j >= 1;
    }
  }

  // ---------------------------------------------------------------------------
  // The bijective base-26 encoding count2str is meant to compute
  // ---------------------------------------------------------------------------

  /** The band PowSum(k - 1) <= n < PowSum(k) holding n fixes k. */
  lemma BandUnique(a: nat, b: nat, n: int)
    requires a >= 1 && PowSum(a - 1) <= n < PowSum(a)
    requires b >= 1 && PowSum(b - 1) <= n < PowSum(b)
    ensures a == b
  {
    if a < b - 1 {
      PowSumStrictlyMonotone(a, b - 1);
    } else if b < a - 1 {
      PowSumStrictlyMonotone(b, a - 1);
    }
  }

  /** Bijective base 26: "A".."Z" for 1..26, then "AA" for 27, with no zero digit. */
  function BijectiveEncode(n: int): (s: string)
    requires n >= 1
    ensures Letters(s)
    decreases n
  {
    if n <= 26 then [Chr(n)]
    else BijectiveEncode((n - 1) / 26) + [Chr((n - 1) % 26 + 1)]
  }

  lemma {:induction false} BijectiveDecodeEncode(n: int)
    requires n >= 1
    ensures Str2Count(BijectiveEncode(n)) == n
    decreases n
  {
    if n > 26 {
      var q := (n - 1) / 26;
      BijectiveDecodeEncode(q);
      Str2CountAppend(BijectiveEncode(q), Chr((n - 1) % 26 + 1));
    }
  }

  lemma {:induction false} BijectiveEncodeDecode(s: string)
    requires Letters(s)
    ensures Str2Count(s) >= 1 && BijectiveEncode(Str2Count(s)) == s
    decreases |s|
  {
    if |s| > 1 {
      var t, ch := s[..|s| - 1], s[|s| - 1];
      assert s == t + [ch];
      assert Letters(t) by {
        forall i | 0 <= i < |t| ensures IsUpper(t[i]) {
          assert t[i] == s[i];
        }
      }
      Str2CountAppend(t, ch);
      Str2CountRange(t);
      var m, v := Str2Count(t), LetterValue(ch);
      assert (26 * m + v - 1) / 26 == m && (26 * m + v - 1) % 26 == v - 1;
      BijectiveEncodeDecode(t);
      assert Chr(v) == ch;
    } else {
      assert Str2Count(s) == LetterValue(s[0]);
      assert [Chr(LetterValue(s[0]))] == s;
    }
  }

  /** For n >= 1 count2str has as many characters as the bijective name of n, '@' or not. */
  lemma Count2StrLength(n: int, k: nat, m: nat)
    requires n >= 1 && k == |Encode(n).value| && m == |BijectiveEncode(n)|
    ensures k == m
  {
    Count2StrAlphabet(n);
    var b := BijectiveEncode(n);
    BijectiveDecodeEncode(n);
    Str2CountRange(b);
    BandUnique(k, m, n);
  }

  /** count2str is right exactly when it emits no '@'. */
  lemma Count2StrCorrectIffNoZeroDigit(n: int)
    requires n >= 1
    ensures Encode(n) == Ok(BijectiveEncode(n)) <==> '@' !in Encode(n).value
  {
    var s := Encode(n).value;
    if '@' !in s {
      Count2StrAlphabet(n);
      assert Letters(s) by {
        forall i | 0 <= i < |s| ensures IsUpper(s[i]) {
          assert s[i] != '@';
        }
      }
      Count2StrNumericRoundTrip(n);
      BijectiveEncodeDecode(s);
    }
  }

  /** Up to "ZZ" (702) count2str is the bijective base-26 encoding. */
  lemma Count2StrAgreesUpTo702(n: int)
    requires 1 <= n <= 702
    ensures Encode(n) == Ok(BijectiveEncode(n))
  {
    Count2StrAlphabet(n);
    var s := Encode(n).value;
    assert |s| <= 2;
    assert '@' !in s by {
      forall i | 0 <= i < |s| ensures s[i] != '@' {
        assert i == 0 || i == |s| - 1;
      }
    }
    Count2StrCorrectIffNoZeroDigit(n);
  }

  /** count2str(str2count(s)) == s for names of one or two letters. */
  lemma Count2StrInvertsShortNames(s: string)
    requires Letters(s) && |s| <= 2
    ensures Encode(Str2Count(s)) == Ok(s)
  {
    Str2CountRange(s);
    assert PowSum(|s|) <= 703;
    Count2StrAgreesUpTo702(Str2Count(s));
    BijectiveEncodeDecode(s);
  }

  lemma Count2StrTwoLetterExamples()
    ensures Encode(1) == Ok("A") && Encode(26) == Ok("Z") && Encode(27) == Ok("AA")
    ensures Encode(52) == Ok("AZ") && Encode(53) == Ok("BA") && Encode(702) == Ok("ZZ")
  {
    assert Chr(1) == 'A' && Chr(2) == 'B' && Chr(26) == 'Z';
    assert BijectiveEncode(27) == BijectiveEncode(1) + [Chr(1)] == "AA";
    assert BijectiveEncode(52) == BijectiveEncode(1) + [Chr(26)] == "AZ";
    assert BijectiveEncode(53) == BijectiveEncode(2) + [Chr(1)] == "BA";
    assert BijectiveEncode(702) == BijectiveEncode(26) + [Chr(26)] == "ZZ";
    Count2StrAgreesUpTo702(1);
    Count2StrAgreesUpTo702(26);
    Count2StrAgreesUpTo702(27);
    Count2StrAgreesUpTo702(52);
    Count2StrAgreesUpTo702(53);
    Count2StrAgreesUpTo702(702);
  }

  lemma GreedyAAA()
    ensures Greedy(1, 27) == "AA" && Greedy(2, 703) == "AAA"
  {
    assert Chr(1) == 'A';
    assert Pow26(1) == 26 && Pow26(2) == 676;
    DigitUnique(26, 27, 26, 1);
    assert Greedy(1, 27) == [Chr(1)] + Greedy(0, 1) == "AA";
    DigitUnique(676, 703, 26, 1);
    assert Greedy(2, 703) == [Chr(1)] + Greedy(1, 27) == "AAA";
  }

  lemma Count2StrThirdLetterExamples()
    ensures Encode(703) == Ok("AAA") && Encode(0) == Ok("@")
  {
    assert Chr(0) == '@';
    WidthUnique(0, 0);
    WidthUnique(703, 2);
    GreedyAAA();
  }

  lemma Greedy1378()
    ensures Greedy(2, 1378) == "B@Z"
  {
    assert Chr(0) == '@' && Chr(2) == 'B' && Chr(26) == 'Z';
    DigitUnique(26, 26, 26, 0);
    assert Greedy(1, 26) == [Chr(0)] + Greedy(0, 26) == "@Z";
    DigitUnique(676, 1378, 26, 2);
    assert Greedy(2, 1378) == [Chr(2)] + Greedy(1, 26) == "B@Z";
  }

  lemma BijectiveEncode1378()
    ensures BijectiveEncode(1378) == "AZZ"
  {
    assert Chr(1) == 'A' && Chr(26) == 'Z';
    assert BijectiveEncode(52) == BijectiveEncode(1) + [Chr(26)] == "AZ";
    assert BijectiveEncode(1378) == BijectiveEncode(52) + [Chr(26)] == "AZZ";
  }

  /** From three letters on the round trip through count2str can fail: "AZZ" comes back as "B@Z". */
  lemma Count2StrLosesLongNames()
    ensures Str2Count("AZZ") == 1378 && BijectiveEncode(1378) == "AZZ"
    ensures Encode(1378) == Ok("B@Z")
    ensures Encode(Str2Count("AZZ")) != Ok("AZZ")
  {
    WidthUnique(1378, 2);
    Greedy1378();
    BijectiveEncode1378();
  }
}
