/** The hash and unhash vectors of the repository's test suite, each a
    consequence of the model: every case is hashed at all seven tiers, and
    each hash decodes to the case's date-time with the listed nano of second.

    Each literal is reached in two steps: a `…Places` lemma writes the encoding
    as a sequence of `Symbol(d)` for the computed digits `d`, and a `…Spelling`
    lemma turns those symbols into characters. Keeping the arithmetic and the
    alphabet apart keeps each proof small. */
module Vectors {
  import opened Wrappers
  import opened Alphabet
  import opened Radix
  import opened DateTimes
  import opened SubSecond
  import opened TimeHash
  import opened TimeHashLaws

  /** A suffix is spelled by the digits of the tier's field divided by the
      multiplier. */
  lemma SuffixSpelled(t: Tier, v: DateTime, x: nat, q: nat, lit: string)
    requires v.Valid() && !t.Trim? && Extract(t, v) == x && x / t.Multiplier() == q
    requires Encode(q, t.Width()) == lit
    ensures HashSuffix(t, Extract(t, v)) == lit
  {
  }

  const MIN_CASE := DateTime(2014, 1, 1, 0, 0)
  const MAX_CASE := DateTime(2061, 12, 31, 86_399, 999_999_999)
  const ASC_CASE := DateTime(2017, 1, 2, 13_506, 789_012_345)
  const DESC_CASE := DateTime(2017, 9, 8, 25_614, 321_098_765)

  lemma MinCorePlaces()
    ensures Core(MIN_CASE) == [Symbol(0), Symbol(1), Symbol(1), Symbol(0), Symbol(0), Symbol(0)]
  {
    EncodeLastDigit(0, 0, 0, 0);
    EncodeLastDigit(0, 1, 0, 0);
    EncodeLastDigit(0, 2, 0, 0);
    assert Core(MIN_CASE) == [Symbol(0), Symbol(1), Symbol(1)] + Encode(0, 3);
  }

  lemma MinCoreSpelling()
    ensures [Symbol(0), Symbol(1), Symbol(1), Symbol(0), Symbol(0), Symbol(0)] == "455444"
  {
    Symbols0To2();
  }

  lemma MinCore()
    ensures Core(MIN_CASE) == "455444"
  {
    MinCorePlaces();
    MinCoreSpelling();
  }

  lemma MinDigitsMilliGroupPlaces()
    ensures Encode(0, 1) == [Symbol(0)]
  {
    EncodeLastDigit(0, 0, 0, 0);
  }

  lemma MinDigitsMilliGroupSpelling()
    ensures [Symbol(0)] == "4"
  {
    Symbols0To2();
  }

  lemma MinDigitsMilliGroup()
    ensures Encode(0, 1) == "4"
  {
    MinDigitsMilliGroupPlaces();
    MinDigitsMilliGroupSpelling();
  }

  lemma MinSuffixMilliGroup()
    ensures HashSuffix(MilliGroup, Extract(MilliGroup, MIN_CASE)) == "4"
  {
    MinDigitsMilliGroup();
    SuffixSpelled(MilliGroup, MIN_CASE, 0, 0, "4");
  }

  lemma MinDigitsMillisPlaces()
    ensures Encode(0, 2) == [Symbol(0), Symbol(0)]
  {
    EncodeLastDigit(0, 0, 0, 0);
    EncodeLastDigit(0, 1, 0, 0);
  }

  lemma MinDigitsMillisSpelling()
    ensures [Symbol(0), Symbol(0)] == "44"
  {
    Symbols0To2();
  }

  lemma MinDigitsMillis()
    ensures Encode(0, 2) == "44"
  {
    MinDigitsMillisPlaces();
    MinDigitsMillisSpelling();
  }

  lemma MinSuffixMillis()
    ensures HashSuffix(Millis, Extract(Millis, MIN_CASE)) == "44"
  {
    MinDigitsMillis();
    SuffixSpelled(Millis, MIN_CASE, 0, 0, "44");
  }

  lemma MinDigitsMicroGroupPlaces()
    ensures Encode(0, 3) == [Symbol(0), Symbol(0), Symbol(0)]
  {
    EncodeLastDigit(0, 0, 0, 0);
    EncodeLastDigit(0, 1, 0, 0);
    EncodeLastDigit(0, 2, 0, 0);
  }

  lemma MinDigitsMicroGroupSpelling()
    ensures [Symbol(0), Symbol(0), Symbol(0)] == "444"
  {
    Symbols0To2();
  }

  lemma MinDigitsMicroGroup()
    ensures Encode(0, 3) == "444"
  {
    MinDigitsMicroGroupPlaces();
    MinDigitsMicroGroupSpelling();
  }

  lemma MinSuffixMicroGroup()
    ensures HashSuffix(MicroGroup, Extract(MicroGroup, MIN_CASE)) == "444"
  {
    MinDigitsMicroGroup();
    SuffixSpelled(MicroGroup, MIN_CASE, 0, 0, "444");
  }

  lemma MinDigitsNanoGroupPlaces()
    ensures Encode(0, 4) == [Symbol(0), Symbol(0), Symbol(0), Symbol(0)]
  {
    EncodeLastDigit(0, 0, 0, 0);
    EncodeLastDigit(0, 1, 0, 0);
    EncodeLastDigit(0, 2, 0, 0);
    EncodeLastDigit(0, 3, 0, 0);
  }

  lemma MinDigitsNanoGroupSpelling()
    ensures [Symbol(0), Symbol(0), Symbol(0), Symbol(0)] == "4444"
  {
    Symbols0To2();
  }

  lemma MinDigitsNanoGroup()
    ensures Encode(0, 4) == "4444"
  {
    MinDigitsNanoGroupPlaces();
    MinDigitsNanoGroupSpelling();
  }

  lemma MinSuffixNanoGroup()
    ensures HashSuffix(NanoGroup, Extract(NanoGroup, MIN_CASE)) == "4444"
  {
    MinDigitsNanoGroup();
    SuffixSpelled(NanoGroup, MIN_CASE, 0, 0, "4444");
  }

  lemma MinDigitsQuadNanoPlaces()
    ensures Encode(0, 5) == [Symbol(0), Symbol(0), Symbol(0), Symbol(0), Symbol(0)]
  {
    EncodeLastDigit(0, 0, 0, 0);
    EncodeLastDigit(0, 1, 0, 0);
    EncodeLastDigit(0, 2, 0, 0);
    EncodeLastDigit(0, 3, 0, 0);
    EncodeLastDigit(0, 4, 0, 0);
  }

  lemma MinDigitsQuadNanoSpelling()
    ensures [Symbol(0), Symbol(0), Symbol(0), Symbol(0), Symbol(0)] == "44444"
  {
    Symbols0To2();
  }

  lemma MinDigitsQuadNano()
    ensures Encode(0, 5) == "44444"
  {
    MinDigitsQuadNanoPlaces();
    MinDigitsQuadNanoSpelling();
  }

  lemma MinSuffixQuadNano()
    ensures HashSuffix(QuadNano, Extract(QuadNano, MIN_CASE)) == "44444"
  {
    MinDigitsQuadNano();
    SuffixSpelled(QuadNano, MIN_CASE, 0, 0, "44444");
  }

  lemma MinDigitsNanosPlaces()
    ensures Encode(0, 6) == [Symbol(0), Symbol(0), Symbol(0), Symbol(0), Symbol(0), Symbol(0)]
  {
    EncodeLastDigit(0, 0, 0, 0);
    EncodeLastDigit(0, 1, 0, 0);
    EncodeLastDigit(0, 2, 0, 0);
    EncodeLastDigit(0, 3, 0, 0);
    EncodeLastDigit(0, 4, 0, 0);
    EncodeLastDigit(0, 5, 0, 0);
  }

  lemma MinDigitsNanosSpelling()
    ensures [Symbol(0), Symbol(0), Symbol(0), Symbol(0), Symbol(0), Symbol(0)] == "444444"
  {
    Symbols0To2();
  }

  lemma MinDigitsNanos()
    ensures Encode(0, 6) == "444444"
  {
    MinDigitsNanosPlaces();
    MinDigitsNanosSpelling();
  }

  lemma MinSuffixNanos()
    ensures HashSuffix(Nanos, Extract(Nanos, MIN_CASE)) == "444444"
  {
    MinDigitsNanos();
    SuffixSpelled(Nanos, MIN_CASE, 0, 0, "444444");
  }

  lemma MinHashTrim()
    ensures Hash(MIN_CASE, Trim) == Success("455444")
  {
    MinCore();
    HashIsCoreAndSuffix(MIN_CASE, Trim);
    assert HashSuffix(Trim, Extract(Trim, MIN_CASE)) == "";
    assert "455444" + "" == "455444";
  }

  lemma MinHashMilliGroup()
    ensures Hash(MIN_CASE, MilliGroup) == Success("4554444")
  {
    MinCore();
    MinSuffixMilliGroup();
    HashIsCoreAndSuffix(MIN_CASE, MilliGroup);
    assert "455444" + "4" == "4554444";
  }

  lemma MinHashMillis()
    ensures Hash(MIN_CASE, Millis) == Success("45544444")
  {
    MinCore();
    MinSuffixMillis();
    HashIsCoreAndSuffix(MIN_CASE, Millis);
    assert "455444" + "44" == "45544444";
  }

  lemma MinHashMicroGroup()
    ensures Hash(MIN_CASE, MicroGroup) == Success("455444444")
  {
    MinCore();
    MinSuffixMicroGroup();
    HashIsCoreAndSuffix(MIN_CASE, MicroGroup);
    assert "455444" + "444" == "455444444";
  }

  lemma MinHashNanoGroup()
    ensures Hash(MIN_CASE, NanoGroup) == Success("4554444444")
  {
    MinCore();
    MinSuffixNanoGroup();
    HashIsCoreAndSuffix(MIN_CASE, NanoGroup);
    assert "455444" + "4444" == "4554444444";
  }

  lemma MinHashQuadNano()
    ensures Hash(MIN_CASE, QuadNano) == Success("45544444444")
  {
    MinCore();
    MinSuffixQuadNano();
    HashIsCoreAndSuffix(MIN_CASE, QuadNano);
    assert "455444" + "44444" == "45544444444";
  }

  lemma MinHashNanos()
    ensures Hash(MIN_CASE, Nanos) == Success("455444444444")
  {
    MinCore();
    MinSuffixNanos();
    HashIsCoreAndSuffix(MIN_CASE, Nanos);
    assert "455444" + "444444" == "455444444444";
  }

  /** `TestCase.MIN`, hashed at every tier. */
  lemma MinHashes()
    ensures Hash(MIN_CASE, Trim) == Success("455444")
    ensures Hash(MIN_CASE, MilliGroup) == Success("4554444")
    ensures Hash(MIN_CASE, Millis) == Success("45544444")
    ensures Hash(MIN_CASE, MicroGroup) == Success("455444444")
    ensures Hash(MIN_CASE, NanoGroup) == Success("4554444444")
    ensures Hash(MIN_CASE, QuadNano) == Success("45544444444")
    ensures Hash(MIN_CASE, Nanos) == Success("455444444444")
  {
    MinHashTrim();
    MinHashMilliGroup();
    MinHashMillis();
    MinHashMicroGroup();
    MinHashNanoGroup();
    MinHashQuadNano();
    MinHashNanos();
  }

  lemma MinUnhashTrim()
    ensures Unhash(Some("455444"), Trim) == Success(MIN_CASE.(nano := 0))
  {
    calc {
      Unhash(Some("455444"), Trim);
    == { MinHashTrim(); RoundTripAt(MIN_CASE, Trim, "455444"); }
      Success(Truncate(MIN_CASE, Trim));
    ==
      Success(MIN_CASE.(nano := 0));
    }
  }

  lemma MinUnhashMilliGroup()
    ensures Unhash(Some("4554444"), MilliGroup) == Success(MIN_CASE.(nano := 0))
  {
    calc {
      Unhash(Some("4554444"), MilliGroup);
    == { MinHashMilliGroup(); RoundTripAt(MIN_CASE, MilliGroup, "4554444"); }
      Success(Truncate(MIN_CASE, MilliGroup));
    ==
      Success(MIN_CASE.(nano := 0));
    }
  }

  lemma MinUnhashMillis()
    ensures Unhash(Some("45544444"), Millis) == Success(MIN_CASE.(nano := 0))
  {
    calc {
      Unhash(Some("45544444"), Millis);
    == { MinHashMillis(); RoundTripAt(MIN_CASE, Millis, "45544444"); }
      Success(Truncate(MIN_CASE, Millis));
    ==
      Success(MIN_CASE.(nano := 0));
    }
  }

  lemma MinUnhashMicroGroup()
    ensures Unhash(Some("455444444"), MicroGroup) == Success(MIN_CASE.(nano := 0))
  {
    calc {
      Unhash(Some("455444444"), MicroGroup);
    == { MinHashMicroGroup(); RoundTripAt(MIN_CASE, MicroGroup, "455444444"); }
      Success(Truncate(MIN_CASE, MicroGroup));
    ==
      Success(MIN_CASE.(nano := 0));
    }
  }

  lemma MinUnhashNanoGroup()
    ensures Unhash(Some("4554444444"), NanoGroup) == Success(MIN_CASE.(nano := 0))
  {
    calc {
      Unhash(Some("4554444444"), NanoGroup);
    == { MinHashNanoGroup(); RoundTripAt(MIN_CASE, NanoGroup, "4554444444"); }
      Success(Truncate(MIN_CASE, NanoGroup));
    ==
      Success(MIN_CASE.(nano := 0));
    }
  }

  lemma MinUnhashQuadNano()
    ensures Unhash(Some("45544444444"), QuadNano) == Success(MIN_CASE.(nano := 0))
  {
    calc {
      Unhash(Some("45544444444"), QuadNano);
    == { MinHashQuadNano(); RoundTripAt(MIN_CASE, QuadNano, "45544444444"); }
      Success(Truncate(MIN_CASE, QuadNano));
    ==
      Success(MIN_CASE.(nano := 0));
    }
  }

  lemma MinUnhashNanos()
    ensures Unhash(Some("455444444444"), Nanos) == Success(MIN_CASE.(nano := 0))
  {
    calc {
      Unhash(Some("455444444444"), Nanos);
    == { MinHashNanos(); RoundTripAt(MIN_CASE, Nanos, "455444444444"); }
      Success(Truncate(MIN_CASE, Nanos));
    ==
      Success(MIN_CASE.(nano := 0));
    }
  }

  /** `TestCase.MIN`: each hash decodes to the case's date-time with its nano
      of second rounded down to the tier's period. */
  lemma MinUnhashes()
    ensures Unhash(Some("455444"), Trim) == Success(MIN_CASE.(nano := 0))
    ensures Unhash(Some("4554444"), MilliGroup) == Success(MIN_CASE.(nano := 0))
    ensures Unhash(Some("45544444"), Millis) == Success(MIN_CASE.(nano := 0))
    ensures Unhash(Some("455444444"), MicroGroup) == Success(MIN_CASE.(nano := 0))
    ensures Unhash(Some("4554444444"), NanoGroup) == Success(MIN_CASE.(nano := 0))
    ensures Unhash(Some("45544444444"), QuadNano) == Success(MIN_CASE.(nano := 0))
    ensures Unhash(Some("455444444444"), Nanos) == Success(MIN_CASE.(nano := 0))
  {
    MinUnhashTrim();
    MinUnhashMilliGroup();
    MinUnhashMillis();
    MinUnhashMicroGroup();
    MinUnhashNanoGroup();
    MinUnhashQuadNano();
    MinUnhashNanos();
  }

  lemma MaxCorePlaces()
    ensures Core(MAX_CASE) == [Symbol(47), Symbol(12), Symbol(31), Symbol(37), Symbol(23), Symbol(47)]
  {
    EncodeLastDigit(37, 0, 0, 37);
    EncodeLastDigit(1799, 1, 37, 23);
    EncodeLastDigit(86399, 2, 1799, 47);
    assert Core(MAX_CASE) == [Symbol(47), Symbol(12), Symbol(31)] + Encode(86_399, 3);
  }

  lemma MaxCoreSpelling()
    ensures [Symbol(47), Symbol(12), Symbol(31), Symbol(37), Symbol(23), Symbol(47)] == "zJgnWz"
  {
    Symbols12To14();
    Symbols21To23();
    Symbols30To32();
    Symbols36To38();
    Symbols45To47();
  }

  lemma MaxCore()
    ensures Core(MAX_CASE) == "zJgnWz"
  {
    MaxCorePlaces();
    MaxCoreSpelling();
  }

  lemma MaxDigitsMilliGroupPlaces()
    ensures Encode(39, 1) == [Symbol(39)]
  {
    EncodeLastDigit(39, 0, 0, 39);
  }

  lemma MaxDigitsMilliGroupSpelling()
    ensures [Symbol(39)] == "q"
  {
    Symbols39To41();
  }

  lemma MaxDigitsMilliGroup()
    ensures Encode(39, 1) == "q"
  {
    MaxDigitsMilliGroupPlaces();
    MaxDigitsMilliGroupSpelling();
  }

  lemma MaxSuffixMilliGroup()
    ensures HashSuffix(MilliGroup, Extract(MilliGroup, MAX_CASE)) == "q"
  {
    MaxDigitsMilliGroup();
    SuffixSpelled(MilliGroup, MAX_CASE, 999, 39, "q");
  }

  lemma MaxDigitsMillisPlaces()
    ensures Encode(999, 2) == [Symbol(20), Symbol(39)]
  {
    EncodeLastDigit(20, 0, 0, 20);
    EncodeLastDigit(999, 1, 20, 39);
  }

  lemma MaxDigitsMillisSpelling()
    ensures [Symbol(20), Symbol(39)] == "Sq"
  {
    Symbols18To20();
    Symbols39To41();
  }

  lemma MaxDigitsMillis()
    ensures Encode(999, 2) == "Sq"
  {
    MaxDigitsMillisPlaces();
    MaxDigitsMillisSpelling();
  }

  lemma MaxSuffixMillis()
    ensures HashSuffix(Millis, Extract(Millis, MAX_CASE)) == "Sq"
  {
    MaxDigitsMillis();
    SuffixSpelled(Millis, MAX_CASE, 999, 999, "Sq");
  }

  lemma MaxDigitsMicroGroupPlaces()
    ensures Encode(99_999, 3) == [Symbol(43), Symbol(19), Symbol(15)]
  {
    EncodeLastDigit(43, 0, 0, 43);
    EncodeLastDigit(2083, 1, 43, 19);
    EncodeLastDigit(99999, 2, 2083, 15);
  }

  lemma MaxDigitsMicroGroupSpelling()
    ensures [Symbol(43), Symbol(19), Symbol(15)] == "vRM"
  {
    Symbols15To17();
    Symbols18To20();
    Symbols42To44();
  }

  lemma MaxDigitsMicroGroup()
    ensures Encode(99_999, 3) == "vRM"
  {
    MaxDigitsMicroGroupPlaces();
    MaxDigitsMicroGroupSpelling();
  }

  lemma MaxSuffixMicroGroup()
    ensures HashSuffix(MicroGroup, Extract(MicroGroup, MAX_CASE)) == "vRM"
  {
    MaxDigitsMicroGroup();
    SuffixSpelled(MicroGroup, MAX_CASE, 999_999, 99_999, "vRM");
  }

  lemma MaxDigitsNanoGroupPlaces()
    ensures Encode(4_999_999, 4) == [Symbol(45), Symbol(10), Symbol(6), Symbol(31)]
  {
    EncodeLastDigit(45, 0, 0, 45);
    EncodeLastDigit(2170, 1, 45, 10);
    EncodeLastDigit(104166, 2, 2170, 6);
    EncodeLastDigit(4999999, 3, 104166, 31);
  }

  lemma MaxDigitsNanoGroupSpelling()
    ensures [Symbol(45), Symbol(10), Symbol(6), Symbol(31)] == "xGBg"
  {
    Symbols6To8();
    Symbols9To11();
    Symbols30To32();
    Symbols45To47();
  }

  lemma MaxDigitsNanoGroup()
    ensures Encode(4_999_999, 4) == "xGBg"
  {
    MaxDigitsNanoGroupPlaces();
    MaxDigitsNanoGroupSpelling();
  }

  lemma MaxSuffixNanoGroup()
    ensures HashSuffix(NanoGroup, Extract(NanoGroup, MAX_CASE)) == "xGBg"
  {
    MaxDigitsNanoGroup();
    SuffixSpelled(NanoGroup, MAX_CASE, 999_999_999, 4_999_999, "xGBg");
  }

  lemma MaxDigitsQuadNanoPlaces()
    ensures Encode(249_999_999, 5) == [Symbol(47), Symbol(4), Symbol(26), Symbol(45), Symbol(15)]
  {
    EncodeLastDigit(47, 0, 0, 47);
    EncodeLastDigit(2260, 1, 47, 4);
    EncodeLastDigit(108506, 2, 2260, 26);
    EncodeLastDigit(5208333, 3, 108506, 45);
    EncodeLastDigit(249999999, 4, 5208333, 15);
  }

  lemma MaxDigitsQuadNanoSpelling()
    ensures [Symbol(47), Symbol(4), Symbol(26), Symbol(45), Symbol(15)] == "z8ZxM"
  {
    Symbols3To5();
    Symbols15To17();
    Symbols24To26();
    Symbols45To47();
  }

  lemma MaxDigitsQuadNano()
    ensures Encode(249_999_999, 5) == "z8ZxM"
  {
    MaxDigitsQuadNanoPlaces();
    MaxDigitsQuadNanoSpelling();
  }

  lemma MaxSuffixQuadNano()
    ensures HashSuffix(QuadNano, Extract(QuadNano, MAX_CASE)) == "z8ZxM"
  {
    MaxDigitsQuadNano();
    SuffixSpelled(QuadNano, MAX_CASE, 999_999_999, 249_999_999, "z8ZxM");
  }

  lemma MaxDigitsNanosPlaces()
    ensures Encode(999_999_999, 6) == [Symbol(3), Symbol(44), Symbol(18), Symbol(11), Symbol(37), Symbol(15)]
  {
    EncodeLastDigit(3, 0, 0, 3);
    EncodeLastDigit(188, 1, 3, 44);
    EncodeLastDigit(9042, 2, 188, 18);
    EncodeLastDigit(434027, 3, 9042, 11);
    EncodeLastDigit(20833333, 4, 434027, 37);
    EncodeLastDigit(999999999, 5, 20833333, 15);
  }

  lemma MaxDigitsNanosSpelling()
    ensures [Symbol(3), Symbol(44), Symbol(18), Symbol(11), Symbol(37), Symbol(15)] == "7wQHnM"
  {
    Symbols3To5();
    Symbols9To11();
    Symbols15To17();
    Symbols18To20();
    Symbols36To38();
    Symbols42To44();
  }

  lemma MaxDigitsNanos()
    ensures Encode(999_999_999, 6) == "7wQHnM"
  {
    MaxDigitsNanosPlaces();
    MaxDigitsNanosSpelling();
  }

  lemma MaxSuffixNanos()
    ensures HashSuffix(Nanos, Extract(Nanos, MAX_CASE)) == "7wQHnM"
  {
    MaxDigitsNanos();
    SuffixSpelled(Nanos, MAX_CASE, 999_999_999, 999_999_999, "7wQHnM");
  }

  lemma MaxHashTrim()
    ensures Hash(MAX_CASE, Trim) == Success("zJgnWz")
  {
    MaxCore();
    HashIsCoreAndSuffix(MAX_CASE, Trim);
    assert HashSuffix(Trim, Extract(Trim, MAX_CASE)) == "";
    assert "zJgnWz" + "" == "zJgnWz";
  }

  lemma MaxHashMilliGroup()
    ensures Hash(MAX_CASE, MilliGroup) == Success("zJgnWzq")
  {
    MaxCore();
    MaxSuffixMilliGroup();
    HashIsCoreAndSuffix(MAX_CASE, MilliGroup);
    assert "zJgnWz" + "q" == "zJgnWzq";
  }

  lemma MaxHashMillis()
    ensures Hash(MAX_CASE, Millis) == Success("zJgnWzSq")
  {
    MaxCore();
    MaxSuffixMillis();
    HashIsCoreAndSuffix(MAX_CASE, Millis);
    assert "zJgnWz" + "Sq" == "zJgnWzSq";
  }

  lemma MaxHashMicroGroup()
    ensures Hash(MAX_CASE, MicroGroup) == Success("zJgnWzvRM")
  {
    MaxCore();
    MaxSuffixMicroGroup();
    HashIsCoreAndSuffix(MAX_CASE, MicroGroup);
    assert "zJgnWz" + "vRM" == "zJgnWzvRM";
  }

  lemma MaxHashNanoGroup()
    ensures Hash(MAX_CASE, NanoGroup) == Success("zJgnWzxGBg")
  {
    MaxCore();
    MaxSuffixNanoGroup();
    HashIsCoreAndSuffix(MAX_CASE, NanoGroup);
    assert "zJgnWz" + "xGBg" == "zJgnWzxGBg";
  }

  lemma MaxHashQuadNano()
    ensures Hash(MAX_CASE, QuadNano) == Success("zJgnWzz8ZxM")
  {
    MaxCore();
    MaxSuffixQuadNano();
    HashIsCoreAndSuffix(MAX_CASE, QuadNano);
    assert "zJgnWz" + "z8ZxM" == "zJgnWzz8ZxM";
  }

  lemma MaxHashNanos()
    ensures Hash(MAX_CASE, Nanos) == Success("zJgnWz7wQHnM")
  {
    MaxCore();
    MaxSuffixNanos();
    HashIsCoreAndSuffix(MAX_CASE, Nanos);
    assert "zJgnWz" + "7wQHnM" == "zJgnWz7wQHnM";
  }

  /** `TestCase.MAX`, hashed at every tier. */
  lemma MaxHashes()
    ensures Hash(MAX_CASE, Trim) == Success("zJgnWz")
    ensures Hash(MAX_CASE, MilliGroup) == Success("zJgnWzq")
    ensures Hash(MAX_CASE, Millis) == Success("zJgnWzSq")
    ensures Hash(MAX_CASE, MicroGroup) == Success("zJgnWzvRM")
    ensures Hash(MAX_CASE, NanoGroup) == Success("zJgnWzxGBg")
    ensures Hash(MAX_CASE, QuadNano) == Success("zJgnWzz8ZxM")
    ensures Hash(MAX_CASE, Nanos) == Success("zJgnWz7wQHnM")
  {
    MaxHashTrim();
    MaxHashMilliGroup();
    MaxHashMillis();
    MaxHashMicroGroup();
    MaxHashNanoGroup();
    MaxHashQuadNano();
    MaxHashNanos();
  }

  lemma MaxUnhashTrim()
    ensures Unhash(Some("zJgnWz"), Trim) == Success(MAX_CASE.(nano := 0))
  {
    calc {
      Unhash(Some("zJgnWz"), Trim);
    == { MaxHashTrim(); RoundTripAt(MAX_CASE, Trim, "zJgnWz"); }
      Success(Truncate(MAX_CASE, Trim));
    ==
      Success(MAX_CASE.(nano := 0));
    }
  }

  lemma MaxUnhashMilliGroup()
    ensures Unhash(Some("zJgnWzq"), MilliGroup) == Success(MAX_CASE.(nano := 975_000_000))
  {
    calc {
      Unhash(Some("zJgnWzq"), MilliGroup);
    == { MaxHashMilliGroup(); RoundTripAt(MAX_CASE, MilliGroup, "zJgnWzq"); }
      Success(Truncate(MAX_CASE, MilliGroup));
    ==
      Success(MAX_CASE.(nano := 975_000_000));
    }
  }

  lemma MaxUnhashMillis()
    ensures Unhash(Some("zJgnWzSq"), Millis) == Success(MAX_CASE.(nano := 999_000_000))
  {
    calc {
      Unhash(Some("zJgnWzSq"), Millis);
    == { MaxHashMillis(); RoundTripAt(MAX_CASE, Millis, "zJgnWzSq"); }
      Success(Truncate(MAX_CASE, Millis));
    ==
      Success(MAX_CASE.(nano := 999_000_000));
    }
  }

  lemma MaxUnhashMicroGroup()
    ensures Unhash(Some("zJgnWzvRM"), MicroGroup) == Success(MAX_CASE.(nano := 999_990_000))
  {
    calc {
      Unhash(Some("zJgnWzvRM"), MicroGroup);
    == { MaxHashMicroGroup(); RoundTripAt(MAX_CASE, MicroGroup, "zJgnWzvRM"); }
      Success(Truncate(MAX_CASE, MicroGroup));
    ==
      Success(MAX_CASE.(nano := 999_990_000));
    }
  }

  lemma MaxUnhashNanoGroup()
    ensures Unhash(Some("zJgnWzxGBg"), NanoGroup) == Success(MAX_CASE.(nano := 999_999_800))
  {
    calc {
      Unhash(Some("zJgnWzxGBg"), NanoGroup);
    == { MaxHashNanoGroup(); RoundTripAt(MAX_CASE, NanoGroup, "zJgnWzxGBg"); }
      Success(Truncate(MAX_CASE, NanoGroup));
    ==
      Success(MAX_CASE.(nano := 999_999_800));
    }
  }

  lemma MaxUnhashQuadNano()
    ensures Unhash(Some("zJgnWzz8ZxM"), QuadNano) == Success(MAX_CASE.(nano := 999_999_996))
  {
    calc {
      Unhash(Some("zJgnWzz8ZxM"), QuadNano);
    == { MaxHashQuadNano(); RoundTripAt(MAX_CASE, QuadNano, "zJgnWzz8ZxM"); }
      Success(Truncate(MAX_CASE, QuadNano));
    ==
      Success(MAX_CASE.(nano := 999_999_996));
    }
  }

  lemma MaxUnhashNanos()
    ensures Unhash(Some("zJgnWz7wQHnM"), Nanos) == Success(MAX_CASE.(nano := 999_999_999))
  {
    calc {
      Unhash(Some("zJgnWz7wQHnM"), Nanos);
    == { MaxHashNanos(); RoundTripAt(MAX_CASE, Nanos, "zJgnWz7wQHnM"); }
      Success(Truncate(MAX_CASE, Nanos));
    ==
      Success(MAX_CASE.(nano := 999_999_999));
    }
  }

  /** `TestCase.MAX`: each hash decodes to the case's date-time with its nano
      of second rounded down to the tier's period. */
  lemma MaxUnhashes()
    ensures Unhash(Some("zJgnWz"), Trim) == Success(MAX_CASE.(nano := 0))
    ensures Unhash(Some("zJgnWzq"), MilliGroup) == Success(MAX_CASE.(nano := 975_000_000))
    ensures Unhash(Some("zJgnWzSq"), Millis) == Success(MAX_CASE.(nano := 999_000_000))
    ensures Unhash(Some("zJgnWzvRM"), MicroGroup) == Success(MAX_CASE.(nano := 999_990_000))
    ensures Unhash(Some("zJgnWzxGBg"), NanoGroup) == Success(MAX_CASE.(nano := 999_999_800))
    ensures Unhash(Some("zJgnWzz8ZxM"), QuadNano) == Success(MAX_CASE.(nano := 999_999_996))
    ensures Unhash(Some("zJgnWz7wQHnM"), Nanos) == Success(MAX_CASE.(nano := 999_999_999))
  {
    MaxUnhashTrim();
    MaxUnhashMilliGroup();
    MaxUnhashMillis();
    MaxUnhashMicroGroup();
    MaxUnhashNanoGroup();
    MaxUnhashQuadNano();
    MaxUnhashNanos();
  }

  lemma AscCorePlaces()
    ensures Core(ASC_CASE) == [Symbol(3), Symbol(1), Symbol(2), Symbol(5), Symbol(41), Symbol(18)]
  {
    EncodeLastDigit(5, 0, 0, 5);
    EncodeLastDigit(281, 1, 5, 41);
    EncodeLastDigit(13506, 2, 281, 18);
    assert Core(ASC_CASE) == [Symbol(3), Symbol(1), Symbol(2)] + Encode(13_506, 3);
  }

  lemma AscCoreSpelling()
    ensures [Symbol(3), Symbol(1), Symbol(2), Symbol(5), Symbol(41), Symbol(18)] == "7569sQ"
  {
    Symbols0To2();
    Symbols3To5();
    Symbols18To20();
    Symbols39To41();
  }

  lemma AscCore()
    ensures Core(ASC_CASE) == "7569sQ"
  {
    AscCorePlaces();
    AscCoreSpelling();
  }

  lemma AscDigitsMilliGroupPlaces()
    ensures Encode(31, 1) == [Symbol(31)]
  {
    EncodeLastDigit(31, 0, 0, 31);
  }

  lemma AscDigitsMilliGroupSpelling()
    ensures [Symbol(31)] == "g"
  {
    Symbols30To32();
  }

  lemma AscDigitsMilliGroup()
    ensures Encode(31, 1) == "g"
  {
    AscDigitsMilliGroupPlaces();
    AscDigitsMilliGroupSpelling();
  }

  lemma AscSuffixMilliGroup()
    ensures HashSuffix(MilliGroup, Extract(MilliGroup, ASC_CASE)) == "g"
  {
    AscDigitsMilliGroup();
    SuffixSpelled(MilliGroup, ASC_CASE, 789, 31, "g");
  }

  lemma AscDigitsMillisPlaces()
    ensures Encode(789, 2) == [Symbol(16), Symbol(21)]
  {
    EncodeLastDigit(16, 0, 0, 16);
    EncodeLastDigit(789, 1, 16, 21);
  }

  lemma AscDigitsMillisSpelling()
    ensures [Symbol(16), Symbol(21)] == "NT"
  {
    Symbols15To17();
    Symbols21To23();
  }

  lemma AscDigitsMillis()
    ensures Encode(789, 2) == "NT"
  {
    AscDigitsMillisPlaces();
    AscDigitsMillisSpelling();
  }

  lemma AscSuffixMillis()
    ensures HashSuffix(Millis, Extract(Millis, ASC_CASE)) == "NT"
  {
    AscDigitsMillis();
    SuffixSpelled(Millis, ASC_CASE, 789, 789, "NT");
  }

  lemma AscDigitsMicroGroupPlaces()
    ensures Encode(78_901, 3) == [Symbol(34), Symbol(11), Symbol(37)]
  {
    EncodeLastDigit(34, 0, 0, 34);
    EncodeLastDigit(1643, 1, 34, 11);
    EncodeLastDigit(78901, 2, 1643, 37);
  }

  lemma AscDigitsMicroGroupSpelling()
    ensures [Symbol(34), Symbol(11), Symbol(37)] == "kHn"
  {
    Symbols9To11();
    Symbols33To35();
    Symbols36To38();
  }

  lemma AscDigitsMicroGroup()
    ensures Encode(78_901, 3) == "kHn"
  {
    AscDigitsMicroGroupPlaces();
    AscDigitsMicroGroupSpelling();
  }

  lemma AscSuffixMicroGroup()
    ensures HashSuffix(MicroGroup, Extract(MicroGroup, ASC_CASE)) == "kHn"
  {
    AscDigitsMicroGroup();
    SuffixSpelled(MicroGroup, ASC_CASE, 789_012, 78_901, "kHn");
  }

  lemma AscDigitsNanoGroupPlaces()
    ensures Encode(3_945_061, 4) == [Symbol(35), Symbol(32), Symbol(12), Symbol(37)]
  {
    EncodeLastDigit(35, 0, 0, 35);
    EncodeLastDigit(1712, 1, 35, 32);
    EncodeLastDigit(82188, 2, 1712, 12);
    EncodeLastDigit(3945061, 3, 82188, 37);
  }

  lemma AscDigitsNanoGroupSpelling()
    ensures [Symbol(35), Symbol(32), Symbol(12), Symbol(37)] == "lhJn"
  {
    Symbols12To14();
    Symbols30To32();
    Symbols33To35();
    Symbols36To38();
  }

  lemma AscDigitsNanoGroup()
    ensures Encode(3_945_061, 4) == "lhJn"
  {
    AscDigitsNanoGroupPlaces();
    AscDigitsNanoGroupSpelling();
  }

  lemma AscSuffixNanoGroup()
    ensures HashSuffix(NanoGroup, Extract(NanoGroup, ASC_CASE)) == "lhJn"
  {
    AscDigitsNanoGroup();
    SuffixSpelled(NanoGroup, ASC_CASE, 789_012_345, 3_945_061, "lhJn");
  }

  lemma AscDigitsQuadNanoPlaces()
    ensures Encode(197_253_086, 5) == [Symbol(37), Symbol(7), Symbol(29), Symbol(15), Symbol(14)]
  {
    EncodeLastDigit(37, 0, 0, 37);
    EncodeLastDigit(1783, 1, 37, 7);
    EncodeLastDigit(85613, 2, 1783, 29);
    EncodeLastDigit(4109439, 3, 85613, 15);
    EncodeLastDigit(197253086, 4, 4109439, 14);
  }

  lemma AscDigitsQuadNanoSpelling()
    ensures [Symbol(37), Symbol(7), Symbol(29), Symbol(15), Symbol(14)] == "nCdML"
  {
    Symbols6To8();
    Symbols12To14();
    Symbols15To17();
    Symbols27To29();
    Symbols36To38();
  }

  lemma AscDigitsQuadNano()
    ensures Encode(197_253_086, 5) == "nCdML"
  {
    AscDigitsQuadNanoPlaces();
    AscDigitsQuadNanoSpelling();
  }

  lemma AscSuffixQuadNano()
    ensures HashSuffix(QuadNano, Extract(QuadNano, ASC_CASE)) == "nCdML"
  {
    AscDigitsQuadNano();
    SuffixSpelled(QuadNano, ASC_CASE, 789_012_345, 197_253_086, "nCdML");
  }

  lemma AscDigitsNanosPlaces()
    ensures Encode(789_012_345, 6) == [Symbol(3), Symbol(4), Symbol(30), Symbol(21), Symbol(13), Symbol(9)]
  {
    EncodeLastDigit(3, 0, 0, 3);
    EncodeLastDigit(148, 1, 3, 4);
    EncodeLastDigit(7134, 2, 148, 30);
    EncodeLastDigit(342453, 3, 7134, 21);
    EncodeLastDigit(16437757, 4, 342453, 13);
    EncodeLastDigit(789012345, 5, 16437757, 9);
  }

  lemma AscDigitsNanosSpelling()
    ensures [Symbol(3), Symbol(4), Symbol(30), Symbol(21), Symbol(13), Symbol(9)] == "78fTKF"
  {
    Symbols3To5();
    Symbols9To11();
    Symbols12To14();
    Symbols21To23();
    Symbols30To32();
  }

  lemma AscDigitsNanos()
    ensures Encode(789_012_345, 6) == "78fTKF"
  {
    AscDigitsNanosPlaces();
    AscDigitsNanosSpelling();
  }

  lemma AscSuffixNanos()
    ensures HashSuffix(Nanos, Extract(Nanos, ASC_CASE)) == "78fTKF"
  {
    AscDigitsNanos();
    SuffixSpelled(Nanos, ASC_CASE, 789_012_345, 789_012_345, "78fTKF");
  }

  lemma AscHashTrim()
    ensures Hash(ASC_CASE, Trim) == Success("7569sQ")
  {
    AscCore();
    HashIsCoreAndSuffix(ASC_CASE, Trim);
    assert HashSuffix(Trim, Extract(Trim, ASC_CASE)) == "";
    assert "7569sQ" + "" == "7569sQ";
  }

  lemma AscHashMilliGroup()
    ensures Hash(ASC_CASE, MilliGroup) == Success("7569sQg")
  {
    AscCore();
    AscSuffixMilliGroup();
    HashIsCoreAndSuffix(ASC_CASE, MilliGroup);
    assert "7569sQ" + "g" == "7569sQg";
  }

  lemma AscHashMillis()
    ensures Hash(ASC_CASE, Millis) == Success("7569sQNT")
  {
    AscCore();
    AscSuffixMillis();
    HashIsCoreAndSuffix(ASC_CASE, Millis);
    assert "7569sQ" + "NT" == "7569sQNT";
  }

  lemma AscHashMicroGroup()
    ensures Hash(ASC_CASE, MicroGroup) == Success("7569sQkHn")
  {
    AscCore();
    AscSuffixMicroGroup();
    HashIsCoreAndSuffix(ASC_CASE, MicroGroup);
    assert "7569sQ" + "kHn" == "7569sQkHn";
  }

  lemma AscHashNanoGroup()
    ensures Hash(ASC_CASE, NanoGroup) == Success("7569sQlhJn")
  {
    AscCore();
    AscSuffixNanoGroup();
    HashIsCoreAndSuffix(ASC_CASE, NanoGroup);
    assert "7569sQ" + "lhJn" == "7569sQlhJn";
  }

  lemma AscHashQuadNano()
    ensures Hash(ASC_CASE, QuadNano) == Success("7569sQnCdML")
  {
    AscCore();
    AscSuffixQuadNano();
    HashIsCoreAndSuffix(ASC_CASE, QuadNano);
    assert "7569sQ" + "nCdML" == "7569sQnCdML";
  }

  lemma AscHashNanos()
    ensures Hash(ASC_CASE, Nanos) == Success("7569sQ78fTKF")
  {
    AscCore();
    AscSuffixNanos();
    HashIsCoreAndSuffix(ASC_CASE, Nanos);
    assert "7569sQ" + "78fTKF" == "7569sQ78fTKF";
  }

  /** `TestCase.ASC`, hashed at every tier. */
  lemma AscHashes()
    ensures Hash(ASC_CASE, Trim) == Success("7569sQ")
    ensures Hash(ASC_CASE, MilliGroup) == Success("7569sQg")
    ensures Hash(ASC_CASE, Millis) == Success("7569sQNT")
    ensures Hash(ASC_CASE, MicroGroup) == Success("7569sQkHn")
    ensures Hash(ASC_CASE, NanoGroup) == Success("7569sQlhJn")
    ensures Hash(ASC_CASE, QuadNano) == Success("7569sQnCdML")
    ensures Hash(ASC_CASE, Nanos) == Success("7569sQ78fTKF")
  {
    AscHashTrim();
    AscHashMilliGroup();
    AscHashMillis();
    AscHashMicroGroup();
    AscHashNanoGroup();
    AscHashQuadNano();
    AscHashNanos();
  }

  lemma AscUnhashTrim()
    ensures Unhash(Some("7569sQ"), Trim) == Success(ASC_CASE.(nano := 0))
  {
    calc {
      Unhash(Some("7569sQ"), Trim);
    == { AscHashTrim(); RoundTripAt(ASC_CASE, Trim, "7569sQ"); }
      Success(Truncate(ASC_CASE, Trim));
    ==
      Success(ASC_CASE.(nano := 0));
    }
  }

  lemma AscUnhashMilliGroup()
    ensures Unhash(Some("7569sQg"), MilliGroup) == Success(ASC_CASE.(nano := 775_000_000))
  {
    calc {
      Unhash(Some("7569sQg"), MilliGroup);
    == { AscHashMilliGroup(); RoundTripAt(ASC_CASE, MilliGroup, "7569sQg"); }
      Success(Truncate(ASC_CASE, MilliGroup));
    ==
      Success(ASC_CASE.(nano := 775_000_000));
    }
  }

  lemma AscUnhashMillis()
    ensures Unhash(Some("7569sQNT"), Millis) == Success(ASC_CASE.(nano := 789_000_000))
  {
    calc {
      Unhash(Some("7569sQNT"), Millis);
    == { AscHashMillis(); RoundTripAt(ASC_CASE, Millis, "7569sQNT"); }
      Success(Truncate(ASC_CASE, Millis));
    ==
      Success(ASC_CASE.(nano := 789_000_000));
    }
  }

  lemma AscUnhashMicroGroup()
    ensures Unhash(Some("7569sQkHn"), MicroGroup) == Success(ASC_CASE.(nano := 789_010_000))
  {
    calc {
      Unhash(Some("7569sQkHn"), MicroGroup);
    == { AscHashMicroGroup(); RoundTripAt(ASC_CASE, MicroGroup, "7569sQkHn"); }
      Success(Truncate(ASC_CASE, MicroGroup));
    ==
      Success(ASC_CASE.(nano := 789_010_000));
    }
  }

  lemma AscUnhashNanoGroup()
    ensures Unhash(Some("7569sQlhJn"), NanoGroup) == Success(ASC_CASE.(nano := 789_012_200))
  {
    calc {
      Unhash(Some("7569sQlhJn"), NanoGroup);
    == { AscHashNanoGroup(); RoundTripAt(ASC_CASE, NanoGroup, "7569sQlhJn"); }
      Success(Truncate(ASC_CASE, NanoGroup));
    ==
      Success(ASC_CASE.(nano := 789_012_200));
    }
  }

  lemma AscUnhashQuadNano()
    ensures Unhash(Some("7569sQnCdML"), QuadNano) == Success(ASC_CASE.(nano := 789_012_344))
  {
    calc {
      Unhash(Some("7569sQnCdML"), QuadNano);
    == { AscHashQuadNano(); RoundTripAt(ASC_CASE, QuadNano, "7569sQnCdML"); }
      Success(Truncate(ASC_CASE, QuadNano));
    ==
      Success(ASC_CASE.(nano := 789_012_344));
    }
  }

  lemma AscUnhashNanos()
    ensures Unhash(Some("7569sQ78fTKF"), Nanos) == Success(ASC_CASE.(nano := 789_012_345))
  {
    calc {
      Unhash(Some("7569sQ78fTKF"), Nanos);
    == { AscHashNanos(); RoundTripAt(ASC_CASE, Nanos, "7569sQ78fTKF"); }
      Success(Truncate(ASC_CASE, Nanos));
    ==
      Success(ASC_CASE.(nano := 789_012_345));
    }
  }

  /** `TestCase.ASC`: each hash decodes to the case's date-time with its nano
      of second rounded down to the tier's period. */
  lemma AscUnhashes()
    ensures Unhash(Some("7569sQ"), Trim) == Success(ASC_CASE.(nano := 0))
    ensures Unhash(Some("7569sQg"), MilliGroup) == Success(ASC_CASE.(nano := 775_000_000))
    ensures Unhash(Some("7569sQNT"), Millis) == Success(ASC_CASE.(nano := 789_000_000))
    ensures Unhash(Some("7569sQkHn"), MicroGroup) == Success(ASC_CASE.(nano := 789_010_000))
    ensures Unhash(Some("7569sQlhJn"), NanoGroup) == Success(ASC_CASE.(nano := 789_012_200))
    ensures Unhash(Some("7569sQnCdML"), QuadNano) == Success(ASC_CASE.(nano := 789_012_344))
    ensures Unhash(Some("7569sQ78fTKF"), Nanos) == Success(ASC_CASE.(nano := 789_012_345))
  {
    AscUnhashTrim();
    AscUnhashMilliGroup();
    AscUnhashMillis();
    AscUnhashMicroGroup();
    AscUnhashNanoGroup();
    AscUnhashQuadNano();
    AscUnhashNanos();
  }

  lemma DescCorePlaces()
    ensures Core(DESC_CASE) == [Symbol(3), Symbol(9), Symbol(8), Symbol(11), Symbol(5), Symbol(30)]
  {
    EncodeLastDigit(11, 0, 0, 11);
    EncodeLastDigit(533, 1, 11, 5);
    EncodeLastDigit(25614, 2, 533, 30);
    assert Core(DESC_CASE) == [Symbol(3), Symbol(9), Symbol(8)] + Encode(25_614, 3);
  }

  lemma DescCoreSpelling()
    ensures [Symbol(3), Symbol(9), Symbol(8), Symbol(11), Symbol(5), Symbol(30)] == "7FDH9f"
  {
    Symbols3To5();
    Symbols6To8();
    Symbols9To11();
    Symbols30To32();
  }

  lemma DescCore()
    ensures Core(DESC_CASE) == "7FDH9f"
  {
    DescCorePlaces();
    DescCoreSpelling();
  }

  lemma DescDigitsMilliGroupPlaces()
    ensures Encode(12, 1) == [Symbol(12)]
  {
    EncodeLastDigit(12, 0, 0, 12);
  }

  lemma DescDigitsMilliGroupSpelling()
    ensures [Symbol(12)] == "J"
  {
    Symbols12To14();
  }

  lemma DescDigitsMilliGroup()
    ensures Encode(12, 1) == "J"
  {
    DescDigitsMilliGroupPlaces();
    DescDigitsMilliGroupSpelling();
  }

  lemma DescSuffixMilliGroup()
    ensures HashSuffix(MilliGroup, Extract(MilliGroup, DESC_CASE)) == "J"
  {
    DescDigitsMilliGroup();
    SuffixSpelled(MilliGroup, DESC_CASE, 321, 12, "J");
  }

  lemma DescDigitsMillisPlaces()
    ensures Encode(321, 2) == [Symbol(6), Symbol(33)]
  {
    EncodeLastDigit(6, 0, 0, 6);
    EncodeLastDigit(321, 1, 6, 33);
  }

  lemma DescDigitsMillisSpelling()
    ensures [Symbol(6), Symbol(33)] == "Bj"
  {
    Symbols6To8();
    Symbols33To35();
  }

  lemma DescDigitsMillis()
    ensures Encode(321, 2) == "Bj"
  {
    DescDigitsMillisPlaces();
    DescDigitsMillisSpelling();
  }

  lemma DescSuffixMillis()
    ensures HashSuffix(Millis, Extract(Millis, DESC_CASE)) == "Bj"
  {
    DescDigitsMillis();
    SuffixSpelled(Millis, DESC_CASE, 321, 321, "Bj");
  }

  lemma DescDigitsMicroGroupPlaces()
    ensures Encode(32_109, 3) == [Symbol(13), Symbol(44), Symbol(45)]
  {
    EncodeLastDigit(13, 0, 0, 13);
    EncodeLastDigit(668, 1, 13, 44);
    EncodeLastDigit(32109, 2, 668, 45);
  }

  lemma DescDigitsMicroGroupSpelling()
    ensures [Symbol(13), Symbol(44), Symbol(45)] == "Kwx"
  {
    Symbols12To14();
    Symbols42To44();
    Symbols45To47();
  }

  lemma DescDigitsMicroGroup()
    ensures Encode(32_109, 3) == "Kwx"
  {
    DescDigitsMicroGroupPlaces();
    DescDigitsMicroGroupSpelling();
  }

  lemma DescSuffixMicroGroup()
    ensures HashSuffix(MicroGroup, Extract(MicroGroup, DESC_CASE)) == "Kwx"
  {
    DescDigitsMicroGroup();
    SuffixSpelled(MicroGroup, DESC_CASE, 321_098, 32_109, "Kwx");
  }

  lemma DescDigitsNanoGroupPlaces()
    ensures Encode(1_605_493, 4) == [Symbol(14), Symbol(24), Symbol(39), Symbol(37)]
  {
    EncodeLastDigit(14, 0, 0, 14);
    EncodeLastDigit(696, 1, 14, 24);
    EncodeLastDigit(33447, 2, 696, 39);
    EncodeLastDigit(1605493, 3, 33447, 37);
  }

  lemma DescDigitsNanoGroupSpelling()
    ensures [Symbol(14), Symbol(24), Symbol(39), Symbol(37)] == "LXqn"
  {
    Symbols12To14();
    Symbols24To26();
    Symbols36To38();
    Symbols39To41();
  }

  lemma DescDigitsNanoGroup()
    ensures Encode(1_605_493, 4) == "LXqn"
  {
    DescDigitsNanoGroupPlaces();
    DescDigitsNanoGroupSpelling();
  }

  lemma DescSuffixNanoGroup()
    ensures HashSuffix(NanoGroup, Extract(NanoGroup, DESC_CASE)) == "LXqn"
  {
    DescDigitsNanoGroup();
    SuffixSpelled(NanoGroup, DESC_CASE, 321_098_765, 1_605_493, "LXqn");
  }

  lemma DescDigitsQuadNanoPlaces()
    ensures Encode(80_274_691, 5) == [Symbol(15), Symbol(5), Symbol(41), Symbol(21), Symbol(19)]
  {
    EncodeLastDigit(15, 0, 0, 15);
    EncodeLastDigit(725, 1, 15, 5);
    EncodeLastDigit(34841, 2, 725, 41);
    EncodeLastDigit(1672389, 3, 34841, 21);
    EncodeLastDigit(80274691, 4, 1672389, 19);
  }

  lemma DescDigitsQuadNanoSpelling()
    ensures [Symbol(15), Symbol(5), Symbol(41), Symbol(21), Symbol(19)] == "M9sTR"
  {
    Symbols3To5();
    Symbols15To17();
    Symbols18To20();
    Symbols21To23();
    Symbols39To41();
  }

  lemma DescDigitsQuadNano()
    ensures Encode(80_274_691, 5) == "M9sTR"
  {
    DescDigitsQuadNanoPlaces();
    DescDigitsQuadNanoSpelling();
  }

  lemma DescSuffixQuadNano()
    ensures HashSuffix(QuadNano, Extract(QuadNano, DESC_CASE)) == "M9sTR"
  {
    DescDigitsQuadNano();
    SuffixSpelled(QuadNano, DESC_CASE, 321_098_765, 80_274_691, "M9sTR");
  }

  lemma DescDigitsNanosPlaces()
    ensures Encode(321_098_765, 6) == [Symbol(1), Symbol(12), Symbol(23), Symbol(21), Symbol(37), Symbol(29)]
  {
    EncodeLastDigit(1, 0, 0, 1);
    EncodeLastDigit(60, 1, 1, 12);
    EncodeLastDigit(2903, 2, 60, 23);
    EncodeLastDigit(139365, 3, 2903, 21);
    EncodeLastDigit(6689557, 4, 139365, 37);
    EncodeLastDigit(321098765, 5, 6689557, 29);
  }

  lemma DescDigitsNanosSpelling()
    ensures [Symbol(1), Symbol(12), Symbol(23), Symbol(21), Symbol(37), Symbol(29)] == "5JWTnd"
  {
    Symbols0To2();
    Symbols12To14();
    Symbols21To23();
    Symbols27To29();
    Symbols36To38();
  }

  lemma DescDigitsNanos()
    ensures Encode(321_098_765, 6) == "5JWTnd"
  {
    DescDigitsNanosPlaces();
    DescDigitsNanosSpelling();
  }

  lemma DescSuffixNanos()
    ensures HashSuffix(Nanos, Extract(Nanos, DESC_CASE)) == "5JWTnd"
  {
    DescDigitsNanos();
    SuffixSpelled(Nanos, DESC_CASE, 321_098_765, 321_098_765, "5JWTnd");
  }

  lemma DescHashTrim()
    ensures Hash(DESC_CASE, Trim) == Success("7FDH9f")
  {
    DescCore();
    HashIsCoreAndSuffix(DESC_CASE, Trim);
    assert HashSuffix(Trim, Extract(Trim, DESC_CASE)) == "";
    assert "7FDH9f" + "" == "7FDH9f";
  }

  lemma DescHashMilliGroup()
    ensures Hash(DESC_CASE, MilliGroup) == Success("7FDH9fJ")
  {
    DescCore();
    DescSuffixMilliGroup();
    HashIsCoreAndSuffix(DESC_CASE, MilliGroup);
    assert "7FDH9f" + "J" == "7FDH9fJ";
  }

  lemma DescHashMillis()
    ensures Hash(DESC_CASE, Millis) == Success("7FDH9fBj")
  {
    DescCore();
    DescSuffixMillis();
    HashIsCoreAndSuffix(DESC_CASE, Millis);
    assert "7FDH9f" + "Bj" == "7FDH9fBj";
  }

  lemma DescHashMicroGroup()
    ensures Hash(DESC_CASE, MicroGroup) == Success("7FDH9fKwx")
  {
    DescCore();
    DescSuffixMicroGroup();
    HashIsCoreAndSuffix(DESC_CASE, MicroGroup);
    assert "7FDH9f" + "Kwx" == "7FDH9fKwx";
  }

  lemma DescHashNanoGroup()
    ensures Hash(DESC_CASE, NanoGroup) == Success("7FDH9fLXqn")
  {
    DescCore();
    DescSuffixNanoGroup();
    HashIsCoreAndSuffix(DESC_CASE, NanoGroup);
    assert "7FDH9f" + "LXqn" == "7FDH9fLXqn";
  }

  lemma DescHashQuadNano()
    ensures Hash(DESC_CASE, QuadNano) == Success("7FDH9fM9sTR")
  {
    DescCore();
    DescSuffixQuadNano();
    HashIsCoreAndSuffix(DESC_CASE, QuadNano);
    assert "7FDH9f" + "M9sTR" == "7FDH9fM9sTR";
  }

  lemma DescHashNanos()
    ensures Hash(DESC_CASE, Nanos) == Success("7FDH9f5JWTnd")
  {
    DescCore();
    DescSuffixNanos();
    HashIsCoreAndSuffix(DESC_CASE, Nanos);
    assert "7FDH9f" + "5JWTnd" == "7FDH9f5JWTnd";
  }

  /** `TestCase.DESC`, hashed at every tier. */
  lemma DescHashes()
    ensures Hash(DESC_CASE, Trim) == Success("7FDH9f")
    ensures Hash(DESC_CASE, MilliGroup) == Success("7FDH9fJ")
    ensures Hash(DESC_CASE, Millis) == Success("7FDH9fBj")
    ensures Hash(DESC_CASE, MicroGroup) == Success("7FDH9fKwx")
    ensures Hash(DESC_CASE, NanoGroup) == Success("7FDH9fLXqn")
    ensures Hash(DESC_CASE, QuadNano) == Success("7FDH9fM9sTR")
    ensures Hash(DESC_CASE, Nanos) == Success("7FDH9f5JWTnd")
  {
    DescHashTrim();
    DescHashMilliGroup();
    DescHashMillis();
    DescHashMicroGroup();
    DescHashNanoGroup();
    DescHashQuadNano();
    DescHashNanos();
  }

  lemma DescUnhashTrim()
    ensures Unhash(Some("7FDH9f"), Trim) == Success(DESC_CASE.(nano := 0))
  {
    calc {
      Unhash(Some("7FDH9f"), Trim);
    == { DescHashTrim(); RoundTripAt(DESC_CASE, Trim, "7FDH9f"); }
      Success(Truncate(DESC_CASE, Trim));
    ==
      Success(DESC_CASE.(nano := 0));
    }
  }

  lemma DescUnhashMilliGroup()
    ensures Unhash(Some("7FDH9fJ"), MilliGroup) == Success(DESC_CASE.(nano := 300_000_000))
  {
    calc {
      Unhash(Some("7FDH9fJ"), MilliGroup);
    == { DescHashMilliGroup(); RoundTripAt(DESC_CASE, MilliGroup, "7FDH9fJ"); }
      Success(Truncate(DESC_CASE, MilliGroup));
    ==
      Success(DESC_CASE.(nano := 300_000_000));
    }
  }

  lemma DescUnhashMillis()
    ensures Unhash(Some("7FDH9fBj"), Millis) == Success(DESC_CASE.(nano := 321_000_000))
  {
    calc {
      Unhash(Some("7FDH9fBj"), Millis);
    == { DescHashMillis(); RoundTripAt(DESC_CASE, Millis, "7FDH9fBj"); }
      Success(Truncate(DESC_CASE, Millis));
    ==
      Success(DESC_CASE.(nano := 321_000_000));
    }
  }

  lemma DescUnhashMicroGroup()
    ensures Unhash(Some("7FDH9fKwx"), MicroGroup) == Success(DESC_CASE.(nano := 321_090_000))
  {
    calc {
      Unhash(Some("7FDH9fKwx"), MicroGroup);
    == { DescHashMicroGroup(); RoundTripAt(DESC_CASE, MicroGroup, "7FDH9fKwx"); }
      Success(Truncate(DESC_CASE, MicroGroup));
    ==
      Success(DESC_CASE.(nano := 321_090_000));
    }
  }

  lemma DescUnhashNanoGroup()
    ensures Unhash(Some("7FDH9fLXqn"), NanoGroup) == Success(DESC_CASE.(nano := 321_098_600))
  {
    calc {
      Unhash(Some("7FDH9fLXqn"), NanoGroup);
    == { DescHashNanoGroup(); RoundTripAt(DESC_CASE, NanoGroup, "7FDH9fLXqn"); }
      Success(Truncate(DESC_CASE, NanoGroup));
    ==
      Success(DESC_CASE.(nano := 321_098_600));
    }
  }

  lemma DescUnhashQuadNano()
    ensures Unhash(Some("7FDH9fM9sTR"), QuadNano) == Success(DESC_CASE.(nano := 321_098_764))
  {
    calc {
      Unhash(Some("7FDH9fM9sTR"), QuadNano);
    == { DescHashQuadNano(); RoundTripAt(DESC_CASE, QuadNano, "7FDH9fM9sTR"); }
      Success(Truncate(DESC_CASE, QuadNano));
    ==
      Success(DESC_CASE.(nano := 321_098_764));
    }
  }

  lemma DescUnhashNanos()
    ensures Unhash(Some("7FDH9f5JWTnd"), Nanos) == Success(DESC_CASE.(nano := 321_098_765))
  {
    calc {
      Unhash(Some("7FDH9f5JWTnd"), Nanos);
    == { DescHashNanos(); RoundTripAt(DESC_CASE, Nanos, "7FDH9f5JWTnd"); }
      Success(Truncate(DESC_CASE, Nanos));
    ==
      Success(DESC_CASE.(nano := 321_098_765));
    }
  }

  /** `TestCase.DESC`: each hash decodes to the case's date-time with its nano
      of second rounded down to the tier's period. */
  lemma DescUnhashes()
    ensures Unhash(Some("7FDH9f"), Trim) == Success(DESC_CASE.(nano := 0))
    ensures Unhash(Some("7FDH9fJ"), MilliGroup) == Success(DESC_CASE.(nano := 300_000_000))
    ensures Unhash(Some("7FDH9fBj"), Millis) == Success(DESC_CASE.(nano := 321_000_000))
    ensures Unhash(Some("7FDH9fKwx"), MicroGroup) == Success(DESC_CASE.(nano := 321_090_000))
    ensures Unhash(Some("7FDH9fLXqn"), NanoGroup) == Success(DESC_CASE.(nano := 321_098_600))
    ensures Unhash(Some("7FDH9fM9sTR"), QuadNano) == Success(DESC_CASE.(nano := 321_098_764))
    ensures Unhash(Some("7FDH9f5JWTnd"), Nanos) == Success(DESC_CASE.(nano := 321_098_765))
  {
    DescUnhashTrim();
    DescUnhashMilliGroup();
    DescUnhashMillis();
    DescUnhashMicroGroup();
    DescUnhashNanoGroup();
    DescUnhashQuadNano();
    DescUnhashNanos();
  }
  const NANOS_CASE := DateTime(2014, 1, 1, 0, 1)
  const MILLIS_CASE := DateTime(2017, 1, 2, 13_506, 789_000_000)
  const SECONDS_CASE := DateTime(2017, 9, 8, 25_614, 0)

  /** `TestCase.NANOS` shares its date and second of day with `TestCase.MIN`. */
  lemma NanosCaseCore()
    ensures Core(NANOS_CASE) == "455444"
  {
    MinCore();
    assert Core(NANOS_CASE) == Core(MIN_CASE);
  }

  lemma NanosCaseDigitsPlaces()
    ensures Encode(1, 6) == [Symbol(0), Symbol(0), Symbol(0), Symbol(0), Symbol(0), Symbol(1)]
  {
    EncodeLastDigit(0, 0, 0, 0);
    EncodeLastDigit(0, 1, 0, 0);
    EncodeLastDigit(0, 2, 0, 0);
    EncodeLastDigit(0, 3, 0, 0);
    EncodeLastDigit(0, 4, 0, 0);
    EncodeLastDigit(1, 5, 0, 1);
  }

  lemma NanosCaseDigitsSpelling()
    ensures [Symbol(0), Symbol(0), Symbol(0), Symbol(0), Symbol(0), Symbol(1)] == "444445"
  {
    Symbols0To2();
  }

  lemma NanosCaseDigits()
    ensures Encode(1, 6) == "444445"
  {
    NanosCaseDigitsPlaces();
    NanosCaseDigitsSpelling();
  }

  lemma NanosCaseSuffix()
    ensures HashSuffix(Nanos, Extract(Nanos, NANOS_CASE)) == "444445"
  {
    NanosCaseDigits();
    SuffixSpelled(Nanos, NANOS_CASE, 1, 1, "444445");
  }

  lemma NanosCaseHash()
    ensures HashAuto(NANOS_CASE) == Success("455444444445")
  {
    assert AutoTier(NANOS_CASE.nano) == Nanos;
    NanosCaseCore();
    NanosCaseSuffix();
    HashIsCoreAndSuffix(NANOS_CASE, Nanos);
    assert "455444" + "444445" == "455444444445";
  }

  /** `TestCase.MILLIS` shares its date and second of day with `TestCase.ASC`. */
  lemma MillisCaseCore()
    ensures Core(MILLIS_CASE) == "7569sQ"
  {
    AscCore();
    assert Core(MILLIS_CASE) == Core(ASC_CASE);
  }

  lemma MillisCaseSuffix()
    ensures HashSuffix(Millis, Extract(Millis, MILLIS_CASE)) == "NT"
  {
    AscDigitsMillis();
    SuffixSpelled(Millis, MILLIS_CASE, 789, 789, "NT");
  }

  lemma MillisCaseHash()
    ensures HashAuto(MILLIS_CASE) == Success("7569sQNT")
  {
    assert AutoTier(MILLIS_CASE.nano) == Millis;
    MillisCaseCore();
    MillisCaseSuffix();
    HashIsCoreAndSuffix(MILLIS_CASE, Millis);
    assert "7569sQ" + "NT" == "7569sQNT";
  }

  /** `TestCase.SECONDS` shares its date and second of day with `TestCase.DESC`. */
  lemma SecondsCaseCore()
    ensures Core(SECONDS_CASE) == "7FDH9f"
  {
    DescCore();
    assert Core(SECONDS_CASE) == Core(DESC_CASE);
  }

  lemma SecondsCaseHash()
    ensures HashAuto(SECONDS_CASE) == Success("7FDH9f")
  {
    assert AutoTier(SECONDS_CASE.nano) == Trim;
    SecondsCaseCore();
    assert HashSuffix(Trim, Extract(Trim, SECONDS_CASE)) == "";
    HashIsCoreAndSuffix(SECONDS_CASE, Trim);
    assert "7FDH9f" + "" == "7FDH9f";
  }

  lemma NanosCaseUnhash()
    ensures UnhashAutoAsWritten(Some("455444444445")) == Success(NANOS_CASE)
  {
    calc {
      UnhashAutoAsWritten(Some("455444444445"));
    == { NanosCaseHash(); HashAutoRoundTrip(NANOS_CASE); }
      Success(NANOS_CASE);
    }
  }

  lemma MillisCaseUnhash()
    ensures UnhashAutoAsWritten(Some("7569sQNT")) == Success(MILLIS_CASE)
  {
    calc {
      UnhashAutoAsWritten(Some("7569sQNT"));
    == { MillisCaseHash(); HashAutoRoundTrip(MILLIS_CASE); }
      Success(MILLIS_CASE);
    }
  }

  lemma SecondsCaseUnhash()
    ensures UnhashAutoAsWritten(Some("7FDH9f")) == Success(SECONDS_CASE)
  {
    calc {
      UnhashAutoAsWritten(Some("7FDH9f"));
    == { SecondsCaseHash(); HashAutoRoundTrip(SECONDS_CASE); }
      Success(SECONDS_CASE);
    }
  }

  /** `TestCase.NANOS`, `MILLIS` and `SECONDS`: the tier-less `hash` picks
      NANOS, MILLIS and TRIM, and the tier-less `unhash(String)`, as written,
      restores the exact date-time. */
  lemma AutoTierVectors()
    ensures HashAuto(NANOS_CASE) == Success("455444444445")
    ensures UnhashAutoAsWritten(Some("455444444445")) == Success(NANOS_CASE)
    ensures HashAuto(MILLIS_CASE) == Success("7569sQNT")
    ensures UnhashAutoAsWritten(Some("7569sQNT")) == Success(MILLIS_CASE)
    ensures HashAuto(SECONDS_CASE) == Success("7FDH9f")
    ensures UnhashAutoAsWritten(Some("7FDH9f")) == Success(SECONDS_CASE)
  {
    NanosCaseHash();
    NanosCaseUnhash();
    MillisCaseHash();
    MillisCaseUnhash();
    SecondsCaseHash();
    SecondsCaseUnhash();
  }

  /** The year checks of `hash`: one year either side of the window. */
  lemma YearRejections()
    ensures HashAuto(DateTime(YEAR_EPOCH - 1, 1, 1, 0, 0)) == Failure(YearBeforeEpoch)
    ensures HashAuto(DateTime(2062, 1, 1, 0, 0)) == Failure(YearAfterMax)
  {
  }

  lemma MinExtraTrim()
    ensures Unhash(Some("4554444"), Trim) == Failure(SubsecondMismatch(Trim))
  {
    calc {
      Unhash(Some("4554444"), Trim);
    == { MinHashTrim(); assert "455444" + ['4'] == "4554444"; }
      Unhash(Some(Hash(MIN_CASE, Trim).value + ['4']), Trim);
    == { ExtraSymbolRejected(MIN_CASE, Trim, '4'); }
      Failure(SubsecondMismatch(Trim));
    }
  }

  lemma MinExtraMilliGroup()
    ensures Unhash(Some("45544444"), MilliGroup) == Failure(SubsecondMismatch(MilliGroup))
  {
    calc {
      Unhash(Some("45544444"), MilliGroup);
    == { MinHashMilliGroup(); assert "4554444" + ['4'] == "45544444"; }
      Unhash(Some(Hash(MIN_CASE, MilliGroup).value + ['4']), MilliGroup);
    == { ExtraSymbolRejected(MIN_CASE, MilliGroup, '4'); }
      Failure(SubsecondMismatch(MilliGroup));
    }
  }

  lemma MinExtraMillis()
    ensures Unhash(Some("455444444"), Millis) == Failure(SubsecondMismatch(Millis))
  {
    calc {
      Unhash(Some("455444444"), Millis);
    == { MinHashMillis(); assert "45544444" + ['4'] == "455444444"; }
      Unhash(Some(Hash(MIN_CASE, Millis).value + ['4']), Millis);
    == { ExtraSymbolRejected(MIN_CASE, Millis, '4'); }
      Failure(SubsecondMismatch(Millis));
    }
  }

  lemma MinExtraMicroGroup()
    ensures Unhash(Some("4554444444"), MicroGroup) == Failure(SubsecondMismatch(MicroGroup))
  {
    calc {
      Unhash(Some("4554444444"), MicroGroup);
    == { MinHashMicroGroup(); assert "455444444" + ['4'] == "4554444444"; }
      Unhash(Some(Hash(MIN_CASE, MicroGroup).value + ['4']), MicroGroup);
    == { ExtraSymbolRejected(MIN_CASE, MicroGroup, '4'); }
      Failure(SubsecondMismatch(MicroGroup));
    }
  }

  lemma MinExtraNanoGroup()
    ensures Unhash(Some("45544444444"), NanoGroup) == Failure(SubsecondMismatch(NanoGroup))
  {
    calc {
      Unhash(Some("45544444444"), NanoGroup);
    == { MinHashNanoGroup(); assert "4554444444" + ['4'] == "45544444444"; }
      Unhash(Some(Hash(MIN_CASE, NanoGroup).value + ['4']), NanoGroup);
    == { ExtraSymbolRejected(MIN_CASE, NanoGroup, '4'); }
      Failure(SubsecondMismatch(NanoGroup));
    }
  }

  lemma MinExtraQuadNano()
    ensures Unhash(Some("455444444444"), QuadNano) == Failure(SubsecondMismatch(QuadNano))
  {
    calc {
      Unhash(Some("455444444444"), QuadNano);
    == { MinHashQuadNano(); assert "45544444444" + ['4'] == "455444444444"; }
      Unhash(Some(Hash(MIN_CASE, QuadNano).value + ['4']), QuadNano);
    == { ExtraSymbolRejected(MIN_CASE, QuadNano, '4'); }
      Failure(SubsecondMismatch(QuadNano));
    }
  }

  lemma MinExtraNanos()
    ensures Unhash(Some("4554444444444"), Nanos) == Failure(SubsecondMismatch(Nanos))
  {
    calc {
      Unhash(Some("4554444444444"), Nanos);
    == { MinHashNanos(); assert "455444444444" + ['4'] == "4554444444444"; }
      Unhash(Some(Hash(MIN_CASE, Nanos).value + ['4']), Nanos);
    == { ExtraSymbolRejected(MIN_CASE, Nanos, '4'); }
      Failure(SubsecondMismatch(Nanos));
    }
  }

  /** The pattern checks of `unhash(String, SubSecond)`: no input, the empty
      string, each MIN hash with a symbol appended, and each MIN hash with a
      foreign first character. */
  lemma ShapeRejections()
    ensures Unhash(None, Trim) == Failure(PatternMismatch)
    ensures Unhash(Some(""), Trim) == Failure(PatternMismatch)
    ensures Unhash(Some("4554444"), Trim) == Failure(SubsecondMismatch(Trim))
    ensures Unhash(Some("*55444"), Trim) == Failure(PatternMismatch)
    ensures Unhash(Some("45544444"), MilliGroup) == Failure(SubsecondMismatch(MilliGroup))
    ensures Unhash(Some("*554444"), MilliGroup) == Failure(PatternMismatch)
    ensures Unhash(Some("455444444"), Millis) == Failure(SubsecondMismatch(Millis))
    ensures Unhash(Some("*5544444"), Millis) == Failure(PatternMismatch)
    ensures Unhash(Some("4554444444"), MicroGroup) == Failure(SubsecondMismatch(MicroGroup))
    ensures Unhash(Some("*55444444"), MicroGroup) == Failure(PatternMismatch)
    ensures Unhash(Some("45544444444"), NanoGroup) == Failure(SubsecondMismatch(NanoGroup))
    ensures Unhash(Some("*554444444"), NanoGroup) == Failure(PatternMismatch)
    ensures Unhash(Some("455444444444"), QuadNano) == Failure(SubsecondMismatch(QuadNano))
    ensures Unhash(Some("*5544444444"), QuadNano) == Failure(PatternMismatch)
    ensures Unhash(Some("4554444444444"), Nanos) == Failure(SubsecondMismatch(Nanos))
    ensures Unhash(Some("*55444444444"), Nanos) == Failure(PatternMismatch)
  {
    SymbolRange('*');
    MinExtraTrim();
    ForeignLeadRejected("*55444", Trim);
    MinExtraMilliGroup();
    ForeignLeadRejected("*554444", MilliGroup);
    MinExtraMillis();
    ForeignLeadRejected("*5544444", Millis);
    MinExtraMicroGroup();
    ForeignLeadRejected("*55444444", MicroGroup);
    MinExtraNanoGroup();
    ForeignLeadRejected("*554444444", NanoGroup);
    MinExtraQuadNano();
    ForeignLeadRejected("*5544444444", QuadNano);
    MinExtraNanos();
    ForeignLeadRejected("*55444444444", Nanos);
  }

  /** The input that shows the unguarded tier lookup: the MIN hash at NANOS with
      one more symbol. The as-written `unhash(String)` indexes past the tier
      table; the guarded one reports a pattern mismatch. */
  lemma ThirteenSymbolInput()
    ensures UnhashAutoAsWritten(Some("4554444444444")) == Failure(TierIndexOutOfBounds)
    ensures UnhashAuto(Some("4554444444444")) == Failure(PatternMismatch)
  {
    Utf16LengthIff("4554444444444");
    AsWrittenDiffersOnlyAtThirteen(Some("4554444444444"));
  }

  /** Twelve characters, the last above U+FFFF, are thirteen UTF-16 units:
      `length()` lets the string through the as-written guard and the tier
      lookup overruns the table. */
  lemma SupplementaryCharacterInput()
    ensures UnhashAutoAsWritten(Some("45544444444\U{1F600}")) == Failure(TierIndexOutOfBounds)
    ensures UnhashAuto(Some("45544444444\U{1F600}")) == Failure(PatternMismatch)
  {
    Utf16LengthIff("45544444444");
    assert "45544444444\U{1F600}" == "45544444444" + "\U{1F600}";
    Utf16LengthSplit("45544444444", "\U{1F600}");
    AsWrittenDiffersOnlyAtThirteen(Some("45544444444\U{1F600}"));
  }
}
