/** Fixed-width positional numerals over the alphabet: `toHash` writes a value
    most significant digit first, and `parse` reads a numeral back. */
module Radix {
  import opened Alphabet
  import opened Arithmetic

  /** RADIX raised to `e`. */
  function Power(e: nat): (p: nat)
    ensures p > 0
  {
    if e == 0 then 1 else RADIX * Power(e - 1)
  }

  /** `toHash(value, width)`: the last symbol is the least significant digit,
      the value is divided by the radix once per symbol written, and whatever is
      left after `width` symbols is silently dropped. Zero digits are Symbol(0). */
  function Encode(value: nat, width: nat): (r: string)
    ensures |r| == width
    ensures AllDigits(r)
  {
    if width == 0 then []
    else
      DigitValueOfChar(value % RADIX);
      Encode(value / RADIX, width - 1) + [Symbol(value % RADIX)]
  }

  /** `parse(String)`: the sum, over the positions of `s`, of the symbol's digit
      value times the radix raised to the number of symbols to its right. */
  function Parse(s: string): (v: nat)
    requires AllDigits(s)
    ensures v < Power(|s|)
  {
    if |s| == 0 then 0
    else
      assert AllDigits(s[1..]) by {
        forall i | 0 <= i < |s| - 1
          ensures IsDigit(s[1..][i])
        {
          assert s[1..][i] == s[i + 1];
        }
      }
      var p := Power(|s| - 1);
      var d := DigitValue(s[0]);
      var rest := Parse(s[1..]);
      PlaceBound(d, p, rest);
      assert Power(|s|) == RADIX * p;
      d * p + rest
  }

  /** The place values the codec uses, up to six digits. */
  lemma PowerValues()
    ensures Power(1) == 48 && Power(2) == 2_304 && Power(3) == 110_592
    ensures Power(4) == 5_308_416 && Power(5) == 254_803_968
    ensures Power(6) == 12_230_590_464
  {
    assert Power(2) == 2_304;
    assert Power(4) == 5_308_416;
    assert Power(6) == 12_230_590_464;
  }

  /** A leading digit in front of a smaller tail stays below RADIX times its
      place value. */
  lemma PlaceBound(d: nat, p: nat, rest: nat)
    requires d < RADIX && rest < p
    ensures 0 <= d * p + rest < RADIX * p
  {
    MulLeftMonotone(d, RADIX - 1, p);
  }

  lemma ShiftPlace(d: nat, p: nat)
    ensures d * (RADIX * p) == (d * p) * RADIX
  {
  }

  /** Java's `String.compareTo`: at the first position where the strings
      differ, the difference of the two character codes; when one string is a
      prefix of the other, the difference of the lengths. */
  function CompareTo(a: string, b: string): int
  {
    if |a| == 0 || |b| == 0 then |a| - |b|
    else if a[0] != b[0] then a[0] as int - b[0] as int
    else CompareTo(a[1..], b[1..])
  }

  /** `a.compareTo(b) < 0`: lexicographic order by character code, a proper
      prefix sorting first. */
  predicate LexLess(a: string, b: string)
  {
    CompareTo(a, b) < 0
  }

  /** `compareTo` is antisymmetric, and it is zero exactly on equal strings. */
  lemma {:induction false} CompareToAntisymmetric(a: string, b: string)
    ensures CompareTo(a, b) == -CompareTo(b, a)
    ensures CompareTo(a, b) == 0 <==> a == b
  {
    if |a| > 0 && |b| > 0 && a[0] == b[0] {
      CompareToAntisymmetric(a[1..], b[1..]);
      assert a == [a[0]] + a[1..] && b == [b[0]] + b[1..];
    }
  }

  /** The method form of `toHash`, with the source's loop: the builder starts as
      `width` copies of the zero symbol (`createWith`) and is overwritten right to left. */
  method ToHash(value: nat, width: nat) returns (r: string)
    ensures r == Encode(value, width)
    ensures Parse(r) == value % Power(width)
  {
    r := seq(width, _ => Symbol(0));
    var remaining: nat := value;
    var i: int := width - 1;
    while i >= 0
      invariant -1 <= i < width && |r| == width
      invariant Encode(remaining, i + 1) + r[i + 1..] == Encode(value, width)
    {
      r := r[i := Symbol(remaining % RADIX)];
      remaining := remaining / RADIX;
      i := i - 1;
    }
    ParseEncode(value, width);
  }

  /** Appending a symbol shifts the value one digit left. */
  lemma {:induction false} ParseSnoc(s: string, c: char)
    requires AllDigits(s) && IsDigit(c)
    ensures AllDigits(s + [c])
    ensures Parse(s + [c]) == Parse(s) * RADIX + DigitValue(c)
    decreases |s|
  {
    var t := s + [c];
    assert AllDigits(t);
    if |s| > 0 {
      var d, p := DigitValue(s[0]), Power(|s| - 1);
      assert t[0] == s[0] && t[1..] == s[1..] + [c];
      ParseSnoc(s[1..], c);
      assert Parse(t) == d * Power(|s|) + Parse(s[1..]) * RADIX + DigitValue(c);
      assert Power(|s|) == RADIX * p;
      ShiftPlace(d, p);
    }
  }

  /** Splitting off the last digit: the residue modulo RADIX^(w+1) is the
      quotient's residue modulo RADIX^w, shifted, plus the last digit. */
  lemma ModShift(v: nat, w: nat)
    ensures (v / RADIX) % Power(w) * RADIX + v % RADIX == v % Power(w + 1)
  {
    var p := Power(w);
    var q := v / RADIX;
    var a := q / p;
    var b := q % p;
    assert v == RADIX * q + v % RADIX;
    assert q == p * a + b;
    assert v == (RADIX * p) * a + (b * RADIX + v % RADIX) by {
      ShiftPlace(a, p);
    }
    assert 0 <= b * RADIX + v % RADIX < RADIX * p by {
      MulLeftMonotone(b, p - 1, RADIX);
    }
    ModUnique(v, RADIX * p, a, b * RADIX + v % RADIX);
  }

  /** Parsing what `toHash` wrote yields the value modulo RADIX^width: the value
      itself when it fits, its low digits when the high ones were dropped. */
  lemma {:induction false} ParseEncode(v: nat, w: nat)
    ensures Parse(Encode(v, w)) == v % Power(w)
  {
    if w > 0 {
      ParseEncode(v / RADIX, w - 1);
      DigitValueOfChar(v % RADIX);
      ParseSnoc(Encode(v / RADIX, w - 1), Symbol(v % RADIX));
      ModShift(v, w - 1);
    }
  }

  /** One step of `toHash`: the last symbol is the remainder's, the rest is
      the quotient's encoding. */
  lemma EncodeLastDigit(v: nat, w: nat, q: nat, d: nat)
    requires d < RADIX && v == q * RADIX + d
    ensures Encode(v, w + 1) == Encode(q, w) + [Symbol(d)]
  {
    ModUnique(v, RADIX, q, d);
  }

  /** Encoding a parsed numeral at its own width gives the numeral back. */
  lemma {:induction false} EncodeParse(s: string)
    requires AllDigits(s)
    ensures Encode(Parse(s), |s|) == s
    decreases |s|
  {
    if |s| > 0 {
      var n := |s| - 1;
      var p, c := s[..n], s[n];
      assert s == p + [c];
      assert AllDigits(p);
      ParseSnoc(p, c);
      ModUnique(Parse(s), RADIX, Parse(p), DigitValue(c));
      EncodeParse(p);
    }
  }

  /** High digits that do not fit are dropped: only `v mod RADIX^w` is encoded. */
  lemma EncodeTruncates(v: nat, w: nat)
    ensures Encode(v, w) == Encode(v % Power(w), w)
  {
    ParseEncode(v, w);
    EncodeParse(Encode(v, w));
  }

  /** A value that fits is read back exactly. */
  lemma ParseEncodeFits(v: nat, w: nat)
    requires v < Power(w)
    ensures Parse(Encode(v, w)) == v
  {
    ParseEncode(v, w);
    ModUnique(v, Power(w), 0, v);
  }

  /** Within range the encoding is a bijection onto the numerals of width `w`. */
  lemma EncodeInjective(v1: nat, v2: nat, w: nat)
    requires v1 < Power(w) && v2 < Power(w)
    ensures Encode(v1, w) == Encode(v2, w) <==> v1 == v2
  {
    ParseEncodeFits(v1, w);
    ParseEncodeFits(v2, w);
  }

  /** Zero encodes as `w` copies of the zero symbol '4'. */
  lemma {:induction false} EncodeZero(w: nat)
    ensures forall i :: 0 <= i < w ==> Encode(0, w)[i] == '4'
  {
    if w > 0 {
      ZeroSymbol();
      EncodeZero(w - 1);
    }
  }

  lemma {:induction false} LexLessExtend(a: string, b: string, x: string, y: string)
    requires |a| == |b| && LexLess(a, b)
    ensures LexLess(a + x, b + y)
    decreases |a|
  {
    assert (a + x)[0] == a[0] && (b + y)[0] == b[0];
    if a[0] == b[0] {
      assert (a + x)[1..] == a[1..] + x;
      assert (b + y)[1..] == b[1..] + y;
      LexLessExtend(a[1..], b[1..], x, y);
    }
  }

  lemma {:induction false} LexLessCommonPrefix(p: string, x: string, y: string)
    requires LexLess(x, y)
    ensures LexLess(p + x, p + y)
    decreases |p|
  {
    if |p| > 0 {
      assert (p + x)[0] == (p + y)[0];
      assert (p + x)[1..] == p[1..] + x;
      assert (p + y)[1..] == p[1..] + y;
      LexLessCommonPrefix(p[1..], x, y);
    } else {
      assert p + x == x && p + y == y;
    }
  }

  lemma {:induction false} LexLessAsymmetric(a: string, b: string)
    requires LexLess(a, b)
    ensures !LexLess(b, a) && a != b
    decreases |a|
  {
    if |a| > 0 && a[0] == b[0] {
      LexLessAsymmetric(a[1..], b[1..]);
    }
  }

  /** Comparing two strings made of equal-length leading blocks: the leading
      blocks decide, and the tails only when the leading blocks are equal. */
  lemma {:induction false} LexLessConcat(x1: string, x2: string, y1: string, y2: string)
    requires |x1| == |y1|
    ensures LexLess(x1 + x2, y1 + y2) <==> LexLess(x1, y1) || (x1 == y1 && LexLess(x2, y2))
    decreases |x1|
  {
    if |x1| == 0 {
      assert x1 + x2 == x2 && y1 + y2 == y2;
    } else {
      assert (x1 + x2)[0] == x1[0] && (y1 + y2)[0] == y1[0];
      assert (x1 + x2)[1..] == x1[1..] + x2;
      assert (y1 + y2)[1..] == y1[1..] + y2;
      LexLessConcat(x1[1..], x2, y1[1..], y2);
      if x1[0] == y1[0] && x1[1..] == y1[1..] {
        assert x1 == [x1[0]] + x1[1..] && y1 == [y1[0]] + y1[1..];
      }
    }
  }

  /** One leading symbol in front of equal-length tails: the digit values
      decide, and the tails only on a tie. */
  lemma PeelSymbol(i: nat, j: nat, x: string, y: string)
    requires i < RADIX && j < RADIX && |x| == |y|
    ensures LexLess([Symbol(i)] + x, [Symbol(j)] + y) <==> i < j || (i == j && LexLess(x, y))
    ensures [Symbol(i)] + x == [Symbol(j)] + y <==> i == j && x == y
  {
    SymbolOrder(i, j);
    var a, b := [Symbol(i)] + x, [Symbol(j)] + y;
    assert a[0] == Symbol(i) && a[1..] == x;
    assert b[0] == Symbol(j) && b[1..] == y;
  }

  /** Fixed-width encoding preserves order: a smaller value gives a
      lexicographically smaller string. */
  lemma {:induction false} EncodeMonotone(v1: nat, v2: nat, w: nat)
    requires v1 < v2 < Power(w)
    ensures LexLess(Encode(v1, w), Encode(v2, w))
  {
    assert w > 0;
    var q1, q2 := v1 / RADIX, v2 / RADIX;
    var r1, r2 := v1 % RADIX, v2 % RADIX;
    var p1, p2 := Encode(q1, w - 1), Encode(q2, w - 1);
    assert Encode(v1, w) == p1 + [Symbol(r1)];
    assert Encode(v2, w) == p2 + [Symbol(r2)];
    if q1 < q2 {
      assert q2 < Power(w - 1);
      EncodeMonotone(q1, q2, w - 1);
      LexLessExtend(p1, p2, [Symbol(r1)], [Symbol(r2)]);
    } else {
      assert q1 == q2 && r1 < r2;
      SymbolOrder(r1, r2);
      assert LexLess([Symbol(r1)], [Symbol(r2)]);
      LexLessCommonPrefix(p1, [Symbol(r1)], [Symbol(r2)]);
    }
  }

  /** Order of in-range values and of their encodings agree, both ways. */
  lemma EncodeOrderIff(v1: nat, v2: nat, w: nat)
    requires v1 < Power(w) && v2 < Power(w)
    ensures LexLess(Encode(v1, w), Encode(v2, w)) <==> v1 < v2
  {
    if v1 < v2 {
      EncodeMonotone(v1, v2, w);
    } else if v2 < v1 {
      EncodeMonotone(v2, v1, w);
      LexLessAsymmetric(Encode(v2, w), Encode(v1, w));
    } else if LexLess(Encode(v1, w), Encode(v2, w)) {
      LexLessAsymmetric(Encode(v1, w), Encode(v2, w));
    }
  }
}
