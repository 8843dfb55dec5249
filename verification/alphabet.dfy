/** The digit alphabet of the time hash: 48 symbols, digit value = position.
    Vowels and look-alikes (0, 1, 2, 3, A, E, I, O, U, a, e, i, o, u) are excluded,
    and the symbols are listed in increasing character-code order, which is what
    lets the source look a symbol up with a binary search. */
module Alphabet {

  const CHARS: string := "456789BCDFGHJKLMNPQRSTVWXYZbcdfghjklmnpqrstvwxyz"

  /** The three runs of the alphabet: the digits 4 to 9, the upper-case
      consonants, the lower-case consonants (see `CharsByRun`). */
  const DIGIT_RUN: string := "456789"
  const UPPER_RUN: string := "BCDFGHJKLMNPQRSTVWXYZ"
  const LOWER_RUN: string := "bcdfghjklmnpqrstvwxyz"

  /** The numeral base: one digit per alphabet symbol (see `RadixIsAlphabetSize`). */
  const RADIX: nat := 48

  lemma RadixIsAlphabetSize()
    ensures |CHARS| == RADIX
  {
  }

  /** `CHARS[d]`, the symbol of digit value `d`. The lookup walks the table from
      its start instead of indexing the literal directly: a proof that mentions
      one symbol then meets only the positions it needs, not the whole
      48-character literal, which keeps every proof about hashes small.
      `SymbolIsChars` states that it is the table entry. */
  function Symbol(d: nat): char
    requires d < RADIX
  {
    SymbolFrom(0, d)
  }

  function SymbolFrom(i: nat, d: nat): char
    requires i <= d < RADIX
    decreases d - i
  {
    if i == d then CHARS[i] else SymbolFrom(i + 1, d)
  }

  lemma {:induction false} SymbolFromIsChars(i: nat, d: nat)
    requires i <= d < RADIX
    ensures SymbolFrom(i, d) == CHARS[d]
    decreases d - i
  {
    if i < d {
      SymbolFromIsChars(i + 1, d);
    }
  }

  lemma SymbolIsChars(d: nat)
    requires d < RADIX
    ensures Symbol(d) == CHARS[d]
  {
    SymbolFromIsChars(0, d);
  }

  /** Position of `c` in the alphabet, searching from index `from`;
      RADIX when `c` does not occur there. */
  function IndexFrom(c: char, from: nat): (r: nat)
    requires from <= RADIX
    ensures from <= r <= RADIX
    ensures r < RADIX ==> Symbol(r) == c
    decreases RADIX - from
  {
    if from == RADIX then RADIX
    else if Symbol(from) == c then from
    else IndexFrom(c, from + 1)
  }

  /** No symbol between `from` and the found position is `c`. */
  lemma {:induction false} IndexFromFirst(c: char, from: nat)
    requires from <= RADIX
    ensures forall k :: from <= k < IndexFrom(c, from) ==> Symbol(k) != c
    decreases RADIX - from
  {
    if from < RADIX && Symbol(from) != c {
      IndexFromFirst(c, from + 1);
    }
  }

  /** `c` occurs in the alphabet (`IsDigitIff`). */
  predicate IsDigit(c: char) {
    IndexFrom(c, 0) < RADIX
  }

  predicate AllDigits(s: string) {
    forall i :: 0 <= i < |s| ==> IsDigit(s[i])
  }

  /** The digit value of an alphabet symbol. */
  function DigitValue(c: char): (d: nat)
    requires IsDigit(c)
    ensures d < RADIX && Symbol(d) == c
  {
    IndexFrom(c, 0)
  }

  lemma IsDigitIff(c: char)
    ensures IsDigit(c) <==> c in CHARS
  {
    if IsDigit(c) {
      SymbolIsChars(DigitValue(c));
    } else if c in CHARS {
      var k :| 0 <= k < |CHARS| && CHARS[k] == c;
      SymbolIsChars(k);
      IndexFromFirst(c, 0);
      assert false;
    }
  }

  lemma CharsByRun()
    ensures CHARS == DIGIT_RUN + UPPER_RUN + LOWER_RUN
  {
  }

  /** The zero digit, used for left padding, is '4'. */
  lemma ZeroSymbol()
    ensures Symbol(0) == '4'
  {
    CharsByRun();
    SymbolIsChars(0);
  }

  /** The largest digit, RADIX - 1, is 'z'. */
  lemma TopSymbol()
    ensures Symbol(RADIX - 1) == 'z'
  {
    CharsByRun();
    SymbolIsChars(RADIX - 1);
  }

  // The spelled-out symbol table, three entries per lemma so that each proof
  // unfolds the literal only a little; the test vectors cite the lemmas
  // covering the symbols they spell.

  /** The symbols of digit values 0 to 2. */
  lemma Symbols0To2()
    ensures Symbol(0) == '4' && Symbol(1) == '5' && Symbol(2) == '6'
  {
    CharsByRun();
    SymbolIsChars(0);
    SymbolIsChars(1);
    SymbolIsChars(2);
  }

  /** The symbols of digit values 3 to 5. */
  lemma Symbols3To5()
    ensures Symbol(3) == '7' && Symbol(4) == '8' && Symbol(5) == '9'
  {
    CharsByRun();
    SymbolIsChars(3);
    SymbolIsChars(4);
    SymbolIsChars(5);
  }

  /** The symbols of digit values 6 to 8. */
  lemma Symbols6To8()
    ensures Symbol(6) == 'B' && Symbol(7) == 'C' && Symbol(8) == 'D'
  {
    CharsByRun();
    SymbolIsChars(6);
    SymbolIsChars(7);
    SymbolIsChars(8);
  }

  /** The symbols of digit values 9 to 11. */
  lemma Symbols9To11()
    ensures Symbol(9) == 'F' && Symbol(10) == 'G' && Symbol(11) == 'H'
  {
    CharsByRun();
    SymbolIsChars(9);
    SymbolIsChars(10);
    SymbolIsChars(11);
  }

  /** The symbols of digit values 12 to 14. */
  lemma Symbols12To14()
    ensures Symbol(12) == 'J' && Symbol(13) == 'K' && Symbol(14) == 'L'
  {
    CharsByRun();
    SymbolIsChars(12);
    SymbolIsChars(13);
    SymbolIsChars(14);
  }

  /** The symbols of digit values 15 to 17. */
  lemma Symbols15To17()
    ensures Symbol(15) == 'M' && Symbol(16) == 'N' && Symbol(17) == 'P'
  {
    CharsByRun();
    SymbolIsChars(15);
    SymbolIsChars(16);
    SymbolIsChars(17);
  }

  /** The symbols of digit values 18 to 20. */
  lemma Symbols18To20()
    ensures Symbol(18) == 'Q' && Symbol(19) == 'R' && Symbol(20) == 'S'
  {
    CharsByRun();
    SymbolIsChars(18);
    SymbolIsChars(19);
    SymbolIsChars(20);
  }

  /** The symbols of digit values 21 to 23. */
  lemma Symbols21To23()
    ensures Symbol(21) == 'T' && Symbol(22) == 'V' && Symbol(23) == 'W'
  {
    CharsByRun();
    SymbolIsChars(21);
    SymbolIsChars(22);
    SymbolIsChars(23);
  }

  /** The symbols of digit values 24 to 26. */
  lemma Symbols24To26()
    ensures Symbol(24) == 'X' && Symbol(25) == 'Y' && Symbol(26) == 'Z'
  {
    CharsByRun();
    SymbolIsChars(24);
    SymbolIsChars(25);
    SymbolIsChars(26);
  }

  /** The symbols of digit values 27 to 29. */
  lemma Symbols27To29()
    ensures Symbol(27) == 'b' && Symbol(28) == 'c' && Symbol(29) == 'd'
  {
    CharsByRun();
    SymbolIsChars(27);
    SymbolIsChars(28);
    SymbolIsChars(29);
  }

  /** The symbols of digit values 30 to 32. */
  lemma Symbols30To32()
    ensures Symbol(30) == 'f' && Symbol(31) == 'g' && Symbol(32) == 'h'
  {
    CharsByRun();
    SymbolIsChars(30);
    SymbolIsChars(31);
    SymbolIsChars(32);
  }

  /** The symbols of digit values 33 to 35. */
  lemma Symbols33To35()
    ensures Symbol(33) == 'j' && Symbol(34) == 'k' && Symbol(35) == 'l'
  {
    CharsByRun();
    SymbolIsChars(33);
    SymbolIsChars(34);
    SymbolIsChars(35);
  }

  /** The symbols of digit values 36 to 38. */
  lemma Symbols36To38()
    ensures Symbol(36) == 'm' && Symbol(37) == 'n' && Symbol(38) == 'p'
  {
    CharsByRun();
    SymbolIsChars(36);
    SymbolIsChars(37);
    SymbolIsChars(38);
  }

  /** The symbols of digit values 39 to 41. */
  lemma Symbols39To41()
    ensures Symbol(39) == 'q' && Symbol(40) == 'r' && Symbol(41) == 's'
  {
    CharsByRun();
    SymbolIsChars(39);
    SymbolIsChars(40);
    SymbolIsChars(41);
  }

  /** The symbols of digit values 42 to 44. */
  lemma Symbols42To44()
    ensures Symbol(42) == 't' && Symbol(43) == 'v' && Symbol(44) == 'w'
  {
    CharsByRun();
    SymbolIsChars(42);
    SymbolIsChars(43);
    SymbolIsChars(44);
  }

  /** The symbols of digit values 45 to 47. */
  lemma Symbols45To47()
    ensures Symbol(45) == 'x' && Symbol(46) == 'y' && Symbol(47) == 'z'
  {
    CharsByRun();
    SymbolIsChars(45);
    SymbolIsChars(46);
    SymbolIsChars(47);
  }

  predicate Increasing(s: string) {
    forall i :: 0 <= i < |s| - 1 ==> s[i] < s[i + 1]
  }

  lemma IncreasingConcat(a: string, b: string)
    requires Increasing(a) && Increasing(b)
    requires |a| > 0 && |b| > 0 && a[|a| - 1] < b[0]
    ensures Increasing(a + b)
  {
    var s := a + b;
    forall i | 0 <= i < |s| - 1
      ensures s[i] < s[i + 1]
    {
      if i < |a| - 1 {
        assert s[i] == a[i] && s[i + 1] == a[i + 1];
      } else if i >= |a| {
        assert s[i] == b[i - |a|] && s[i + 1] == b[i + 1 - |a|];
      }
    }
  }

  lemma DigitRunIncreasing()
    ensures Increasing(DIGIT_RUN)
  {
  }

  lemma UpperRunIncreasing()
    ensures Increasing(UPPER_RUN)
  {
  }

  lemma LowerRunIncreasing()
    ensures Increasing(LOWER_RUN)
  {
  }

  /** Each adjacent pair of symbols is in increasing character-code order. */
  lemma AdjacentIncreasing()
    ensures Increasing(CHARS)
  {
    CharsByRun();
    DigitRunIncreasing();
    UpperRunIncreasing();
    LowerRunIncreasing();
    IncreasingConcat(DIGIT_RUN, UPPER_RUN);
    IncreasingConcat(DIGIT_RUN + UPPER_RUN, LOWER_RUN);
  }

  /** The alphabet is strictly increasing, hence its symbols are pairwise distinct. */
  lemma {:induction false} StrictlyIncreasing(i: nat, j: nat)
    requires i < j < |CHARS|
    ensures CHARS[i] < CHARS[j]
    decreases j - i
  {
    AdjacentIncreasing();
    if i + 1 < j {
      StrictlyIncreasing(i + 1, j);
    }
  }

  /** Symbols compare as their digit values do, both ways. */
  lemma SymbolOrder(i: nat, j: nat)
    requires i < RADIX && j < RADIX
    ensures Symbol(i) < Symbol(j) <==> i < j
    ensures Symbol(i) == Symbol(j) <==> i == j
  {
    SymbolIsChars(i);
    SymbolIsChars(j);
    if i < j {
      StrictlyIncreasing(i, j);
    } else if j < i {
      StrictlyIncreasing(j, i);
    }
  }

  /** Every symbol lies between the zero digit '4' and the top digit 'z', so
      anything outside that range (such as '*') is rejected. */
  lemma SymbolRange(c: char)
    ensures IsDigit(c) ==> '4' <= c <= 'z'
  {
    if IsDigit(c) {
      var k := DigitValue(c);
      ZeroSymbol();
      TopSymbol();
      SymbolOrder(0, k);
      SymbolOrder(k, RADIX - 1);
    }
  }

  /** Decoding a symbol inverts the positional lookup. */
  lemma DigitValueOfChar(k: nat)
    requires k < RADIX
    ensures IsDigit(Symbol(k)) && DigitValue(Symbol(k)) == k
  {
    IndexFromFirst(Symbol(k), 0);
    var d := DigitValue(Symbol(k));
    SymbolOrder(d, k);
  }

  /** Everything up to a symbol below `key` is below `key`. */
  lemma BelowFrom(mid: nat, key: char)
    requires mid < RADIX && Symbol(mid) < key
    ensures forall k :: 0 <= k <= mid ==> Symbol(k) < key
  {
    forall k | 0 <= k < mid
      ensures Symbol(k) < key
    {
      SymbolOrder(k, mid);
    }
  }

  /** Everything from a symbol above `key` on is above `key`. */
  lemma AboveFrom(mid: nat, key: char)
    requires mid < RADIX && key < Symbol(mid)
    ensures forall k :: mid <= k < RADIX ==> key < Symbol(k)
  {
    forall k | mid < k < RADIX
      ensures key < Symbol(k)
    {
      SymbolOrder(mid, k);
    }
  }

  /** `Arrays.binarySearch(CHARS, key)`: the index of `key` when it is a symbol,
      otherwise `-(insertionPoint) - 1`, where every symbol before the insertion
      point is below `key` and every symbol from it on is above. */
  method BinarySearch(key: char) returns (r: int)
    ensures IsDigit(key) ==> r == DigitValue(key)
    ensures !IsDigit(key) ==> r < 0 && -r - 1 <= RADIX
    ensures !IsDigit(key) ==> forall k :: 0 <= k < -r - 1 ==> Symbol(k) < key
    ensures !IsDigit(key) ==> forall k :: -r - 1 <= k < RADIX ==> key < Symbol(k)
  {
    var low, high := 0, RADIX - 1;
    while low <= high
      invariant 0 <= low <= high + 1 <= RADIX
      invariant forall k :: 0 <= k < low ==> Symbol(k) < key
      invariant forall k :: high < k < RADIX ==> key < Symbol(k)
      decreases high - low
    {
      var mid := (low + high) / 2;
      if Symbol(mid) < key {
        BelowFrom(mid, key);
        low := mid + 1;
      } else if key < Symbol(mid) {
        AboveFrom(mid, key);
        high := mid - 1;
      } else {
        DigitValueOfChar(mid);
        return mid;
      }
    }
    r := -(low + 1);
  }
}
