/** What the codec promises about hash and unhash together: the layout of a
    hash, the round trip in both directions, the automatic tier choice, the
    tier-by-length lookup, and order preservation. */
module TimeHashLaws {
  import opened Wrappers
  import opened Arithmetic
  import opened Alphabet
  import opened Radix
  import opened DateTimes
  import opened SubSecond
  import opened TimeHash

  /** The six core symbols of a hash. */
  function Core(v: DateTime): (c: string)
    requires v.Valid() && YEAR_EPOCH <= v.year <= YEAR_MAX
    ensures |c| == MIN_CHARS && AllDigits(c)
  {
    DigitValueOfChar(v.year - YEAR_EPOCH);
    DigitValueOfChar(v.month);
    DigitValueOfChar(v.day);
    [Symbol(v.year - YEAR_EPOCH), Symbol(v.month), Symbol(v.day)] + Encode(v.secondOfDay, 3)
  }

  lemma HashIsCoreAndSuffix(v: DateTime, t: Tier)
    requires v.Valid() && YEAR_EPOCH <= v.year <= YEAR_MAX
    ensures Hash(v, t) == Success(Core(v) + HashSuffix(t, Extract(t, v)))
  {
  }

  /** A hash spelled out: the three date symbols, the time-of-day numeral and
      the suffix. */
  lemma HashSpelled(v: DateTime, t: Tier)
    requires v.Valid() && YEAR_EPOCH <= v.year <= YEAR_MAX
    ensures Hash(v, t).value == [Symbol(v.year - YEAR_EPOCH), Symbol(v.month), Symbol(v.day)]
      + Encode(v.secondOfDay, 3) + HashSuffix(t, Extract(t, v))
  {
  }

  /** Decoding the core of a date-time gives back its date and second of day
      at nano 0: no core field loses a digit to its fixed width. */
  lemma CoreRoundTrip(v: DateTime)
    requires v.Valid() && YEAR_EPOCH <= v.year <= YEAR_MAX
    ensures DecodeCore(Core(v)) == Some(v.(nano := 0))
  {
    var c := Core(v);
    assert DigitValue(c[0]) == v.year - YEAR_EPOCH by {
      DigitValueOfChar(v.year - YEAR_EPOCH);
    }
    assert DigitValue(c[1]) == v.month && DigitValue(c[2]) == v.day by {
      DigitValueOfChar(v.month);
      DigitValueOfChar(v.day);
    }
    assert Parse(c[3..]) == v.secondOfDay by {
      assert c[3..] == Encode(v.secondOfDay, 3);
      PowerValues();
      ParseEncodeFits(v.secondOfDay, 3);
    }
  }


  /** A core that decodes is the core of what it decodes to. */
  lemma CoreCanonical(c: string)
    requires |c| == MIN_CHARS && AllDigits(c) && DecodeCore(c).Some?
    ensures Core(DecodeCore(c).value) == c
  {
    var r := DecodeCore(c).value;
    var d := Core(r);
    assert d[..3] == c[..3] by {
      assert d[0] == Symbol(DigitValue(c[0])) == c[0];
      assert d[1] == Symbol(DigitValue(c[1])) == c[1];
      assert d[2] == Symbol(DigitValue(c[2])) == c[2];
    }
    assert d[3..] == c[3..] by {
      assert d[3..] == Encode(Parse(c[3..]), 3);
      EncodeParse(c[3..]);
    }
    assert d == d[..3] + d[3..] && c == c[..3] + c[3..];
  }


  /** Position by position, a hash holds the year offset, month and day as one
      digit each, the second of day as three digits and the tier's quotient as
      `Width()` digits, and none of them loses a digit to the fixed width. */
  lemma HashLayout(v: DateTime, t: Tier)
    requires v.Valid() && YEAR_EPOCH <= v.year <= YEAR_MAX
    ensures var h := Hash(v, t).value;
      && |h| == MIN_CHARS + t.Width()
      && DigitValue(h[0]) == v.year - YEAR_EPOCH
      && DigitValue(h[1]) == v.month
      && DigitValue(h[2]) == v.day
      && AllDigits(h[3..MIN_CHARS]) && Parse(h[3..MIN_CHARS]) == v.secondOfDay
      && AllDigits(h[MIN_CHARS..]) && Parse(h[MIN_CHARS..]) == SuffixValue(t, v)
  {
    var h := Hash(v, t).value;
    var c := Core(v);
    assert h[..MIN_CHARS] == c && h[MIN_CHARS..] == HashSuffix(t, Extract(t, v)) by {
      HashIsCoreAndSuffix(v, t);
    }
    CoreRoundTrip(v);
    assert h[0] == c[0] && h[1] == c[1] && h[2] == c[2];
    assert h[3..MIN_CHARS] == c[3..];
    if !t.Trim? {
      ParseEncodeFits(SuffixValue(t, v), t.Width());
    }
  }

  /** `Unhash` of a core followed by a suffix succeeds when the core decodes
      and the suffix applies to it. */
  lemma UnhashParts(c: string, x: string, t: Tier, base: DateTime, r: DateTime)
    requires |c| == MIN_CHARS && AllDigits(c) && Matches(t, x)
    requires DecodeCore(c) == Some(base)
    requires base.Valid() && UnhashSuffix(t, x, base) == Some(r)
    ensures Unhash(Some(c + x), t) == Success(r)
  {
    assert (c + x)[..MIN_CHARS] == c && (c + x)[MIN_CHARS..] == x;
  }


  /** Unhashing a hash gives back the date-time with its nano of second rounded
      down to the tier's period; TRIM gives nano 0, NANOS the exact value. */
  lemma RoundTrip(v: DateTime, t: Tier)
    requires v.Valid() && YEAR_EPOCH <= v.year <= YEAR_MAX
    ensures Unhash(Some(Hash(v, t).value), t) == Success(Truncate(v, t))
  {
    var base := v.(nano := 0);
    var x := HashSuffix(t, Extract(t, v));
    HashIsCoreAndSuffix(v, t);
    CoreRoundTrip(v);
    SuffixRoundTrip(t, v, base);
    UnhashParts(Core(v), x, t, base, Truncate(v, t));
  }




  /** `RoundTrip` for a hash already known by value. */
  lemma RoundTripAt(v: DateTime, t: Tier, s: string)
    requires v.Valid() && Hash(v, t) == Success(s)
    ensures Unhash(Some(s), t) == Success(Truncate(v, t))
  {
    RoundTrip(v, t);
  }

  /** Every string `Unhash` accepts is exactly the hash of what it decodes to,
      so no two accepted strings decode to the same date-time. */
  lemma Canonical(s: string, t: Tier)
    requires Unhash(Some(s), t).Success?
    ensures Hash(Unhash(Some(s), t).value, t) == Success(s)
  {
    var r := Unhash(Some(s), t).value;
    var c, x := s[..MIN_CHARS], s[MIN_CHARS..];
    var base := DecodeCore(c).value;
    assert UnhashSuffix(t, x, base) == Some(r);
    CoreCanonical(c);
    assert Core(r) == Core(base);
    SuffixCanonical(t, x, base);
    HashIsCoreAndSuffix(r, t);
    assert s == c + x;
  }

  /** The hash only depends on the tier-truncated date-time. */
  lemma HashIgnoresBelowPeriod(v: DateTime, t: Tier)
    requires v.Valid() && YEAR_EPOCH <= v.year <= YEAR_MAX
    ensures Truncate(v, t).Valid()
    ensures Hash(Truncate(v, t), t) == Hash(v, t)
  {
    RoundTrip(v, t);
    Canonical(Hash(v, t).value, t);
  }

  /** `hash(LocalDateTime)` followed by `unhash(String)` is the identity, for
      the decoder as written and for the guarded one. */
  lemma HashAutoRoundTrip(v: DateTime)
    requires v.Valid() && YEAR_EPOCH <= v.year <= YEAR_MAX
    ensures UnhashAutoAsWritten(Some(HashAuto(v).value)) == Success(v)
    ensures UnhashAuto(Some(HashAuto(v).value)) == Success(v)
  {
    var t := AutoTier(v.nano);
    RoundTrip(v, t);
    LengthDeterminesTier(v, t);
    assert Truncate(v, t) == v;
  }

  /** `length()` counts one unit per character exactly when no character lies
      above U+FFFF. */
  lemma {:induction false} Utf16LengthIff(s: string)
    ensures Utf16Length(s) == |s| <==> forall i :: 0 <= i < |s| ==> s[i] as int < 0x1_0000
  {
    if |s| > 0 {
      Utf16LengthIff(s[1..]);
      assert forall i :: 1 <= i < |s| ==> s[1..][i - 1] == s[i];
    }
  }

  /** `length()` adds up over concatenation. */
  lemma {:induction false} Utf16LengthSplit(a: string, b: string)
    ensures Utf16Length(a + b) == Utf16Length(a) + Utf16Length(b)
  {
    if |a| > 0 {
      assert (a + b)[1..] == a[1..] + b;
      Utf16LengthSplit(a[1..], b);
    } else {
      assert a + b == b;
    }
  }

  /** Alphabet symbols are ASCII, so the length of an alphabet string is its
      number of characters. */
  lemma DigitsUtf16Length(s: string)
    requires AllDigits(s)
    ensures Utf16Length(s) == |s|
  {
    forall i | 0 <= i < |s|
      ensures s[i] as int < 0x1_0000
    {
      SymbolRange(s[i]);
    }
    Utf16LengthIff(s);
  }

  /** For every length from 6 to 12 the tier-less decoder, as written and
      guarded, picks the tier whose width is the length less 6. */
  lemma UnhashAutoSelectsTier(s: string)
    requires MIN_CHARS <= Utf16Length(s) < MIN_CHARS + |VALUES|
    ensures VALUES[Utf16Length(s) - MIN_CHARS].Width() == Utf16Length(s) - MIN_CHARS
    ensures UnhashAutoAsWritten(Some(s)) == Unhash(Some(s), VALUES[Utf16Length(s) - MIN_CHARS])
    ensures UnhashAuto(Some(s)) == Unhash(Some(s), VALUES[Utf16Length(s) - MIN_CHARS])
  {
    ValuesByWidth();
  }

  /** Length determines tier: decoding a tier's hash without naming the tier,
      with either decoder, is decoding it with that tier. */
  lemma LengthDeterminesTier(v: DateTime, t: Tier)
    requires v.Valid() && YEAR_EPOCH <= v.year <= YEAR_MAX
    ensures UnhashAutoAsWritten(Some(Hash(v, t).value)) == Unhash(Some(Hash(v, t).value), t)
    ensures UnhashAuto(Some(Hash(v, t).value)) == Unhash(Some(Hash(v, t).value), t)
  {
    DigitsUtf16Length(Hash(v, t).value);
    ValuesByWidth();
  }

  /** The as-written `unhash(String)` and the guarded one differ only on input
      of length 13, where the as-written one overruns the tier table. */
  lemma AsWrittenDiffersOnlyAtThirteen(s: Option<string>)
    ensures s.Some? && Utf16Length(s.value) == MIN_CHARS + |VALUES| ==>
      UnhashAutoAsWritten(s) == Failure(TierIndexOutOfBounds) && UnhashAuto(s) == Failure(PatternMismatch)
    ensures !(s.Some? && Utf16Length(s.value) == MIN_CHARS + |VALUES|) ==>
      UnhashAutoAsWritten(s) == UnhashAuto(s)
  {
  }

  /** `validate` for the core: the input is present, has at least six
      characters, and its first six are alphabet symbols. */
  lemma CoreMatchesIff(s: Option<string>)
    ensures CoreMatches(s) <==>
      s.Some? && |s.value| >= MIN_CHARS && forall i :: 0 <= i < MIN_CHARS ==> s.value[i] in CHARS
  {
    if s.Some? && |s.value| >= MIN_CHARS {
      var c := s.value[..MIN_CHARS];
      forall i | 0 <= i < MIN_CHARS
        ensures IsDigit(c[i]) <==> s.value[i] in CHARS
      {
        IsDigitIff(c[i]);
      }
    }
  }

  /** Past the shape checks, `Unhash` fails with `InvalidField` exactly when
      the core does not decode or the suffix does not apply to it. */
  lemma UnhashStages(s: string, t: Tier)
    requires CoreMatches(Some(s)) && Matches(t, s[MIN_CHARS..])
    ensures Unhash(Some(s), t) == Failure(InvalidField) <==>
      DecodeCore(s[..MIN_CHARS]).None?
      || UnhashSuffix(t, s[MIN_CHARS..], DecodeCore(s[..MIN_CHARS]).value).None?
  {
  }

  /** A decoder failure with `InvalidField` happens exactly when the core and
      suffix have the right shape but a decoded field is out of range. */
  lemma InvalidFieldIff(s: string, t: Tier)
    requires CoreMatches(Some(s)) && Matches(t, s[MIN_CHARS..])
    ensures AllDigits(s[3..MIN_CHARS]) && IsDigit(s[1]) && IsDigit(s[2])
    ensures Unhash(Some(s), t) == Failure(InvalidField) <==>
      || !(1 <= DigitValue(s[1]) <= 12)
      || !(1 <= DigitValue(s[2]) <= DaysInMonth(YEAR_EPOCH + DigitValue(s[0]), DigitValue(s[1])))
      || Parse(s[3..MIN_CHARS]) >= SECONDS_PER_DAY
      || (t.Source().Some? && t.Multiplier() * Parse(s[MIN_CHARS..]) > t.Source().value.Max())
  {
    var c, x := s[..MIN_CHARS], s[MIN_CHARS..];
    assert c[0] == s[0] && c[1] == s[1] && c[2] == s[2];
    assert AllDigits(s[3..MIN_CHARS]) && Parse(c[3..]) == Parse(s[3..MIN_CHARS]) by {
      assert c[3..] == s[3..MIN_CHARS];
    }
    assert Unhash(Some(s), t) == Failure(InvalidField) <==>
      DecodeCore(c).None? || UnhashSuffix(t, x, DecodeCore(c).value).None? by {
      UnhashStages(s, t);
    }
  }




  lemma Nest(a: char, b: char, c: char, e: string, x: string)
    ensures [a, b, c] + e + x == [a] + ([b] + ([c] + (e + x)))
  {
    var flat, nested := [a, b, c] + e + x, [a] + ([b] + ([c] + (e + x)));
    assert forall i :: 0 <= i < |flat| ==> flat[i] == nested[i];
  }



  /** Second of day and suffix together compare as the second of day and the
      rounded-down nano of second do. */
  lemma TimeOfDayOrder(a: DateTime, b: DateTime, t: Tier)
    requires a.Valid() && b.Valid()
    ensures var ra := Encode(a.secondOfDay, 3) + HashSuffix(t, Extract(t, a));
      var rb := Encode(b.secondOfDay, 3) + HashSuffix(t, Extract(t, b));
      var ta, tb := Truncate(a, t), Truncate(b, t);
      && (LexLess(ra, rb) <==>
            (ta.secondOfDay < tb.secondOfDay
             || (ta.secondOfDay == tb.secondOfDay && ta.nano < tb.nano)))
      && (ra == rb <==> ta.secondOfDay == tb.secondOfDay && ta.nano == tb.nano)
  {
    var ea, eb := Encode(a.secondOfDay, 3), Encode(b.secondOfDay, 3);
    var sa, sb := HashSuffix(t, Extract(t, a)), HashSuffix(t, Extract(t, b));
    PowerValues();
    EncodeOrderIff(a.secondOfDay, b.secondOfDay, 3);
    EncodeInjective(a.secondOfDay, b.secondOfDay, 3);
    SuffixOrder(t, a, b);
    LexLessConcat(ea, sa, eb, sb);
    if ea + sa == eb + sb {
      assert ea == (ea + sa)[..3] && eb == (eb + sb)[..3];
      assert sa == (ea + sa)[3..] && sb == (eb + sb)[3..];
    }
  }

  /** Three leading symbols, for a year, a month and a day, in front of
      equal-length tails compare field by field, the tails deciding only when
      all three agree. */
  lemma NestedOrder(h1: string, y1: int, m1: nat, d1: nat, e1: string, x1: string,
                    h2: string, y2: int, m2: nat, d2: nat, e2: string, x2: string)
    requires YEAR_EPOCH <= y1 <= YEAR_MAX && m1 < RADIX && d1 < RADIX
    requires YEAR_EPOCH <= y2 <= YEAR_MAX && m2 < RADIX && d2 < RADIX
    requires |e1 + x1| == |e2 + x2|
    requires h1 == [Symbol(y1 - YEAR_EPOCH), Symbol(m1), Symbol(d1)] + e1 + x1
    requires h2 == [Symbol(y2 - YEAR_EPOCH), Symbol(m2), Symbol(d2)] + e2 + x2
    ensures LexLess(h1, h2) <==>
      (y1 < y2 || (y1 == y2 && (m1 < m2 || (m1 == m2 && (d1 < d2 || (d1 == d2 && LexLess(e1 + x1, e2 + x2)))))))
    ensures h1 == h2 <==> y1 == y2 && m1 == m2 && d1 == d2 && e1 + x1 == e2 + x2
  {
    var s1, s2 := Symbol(y1 - YEAR_EPOCH), Symbol(y2 - YEAR_EPOCH);
    Nest(s1, Symbol(m1), Symbol(d1), e1, x1);
    Nest(s2, Symbol(m2), Symbol(d2), e2, x2);
    var r1, r2 := e1 + x1, e2 + x2;
    var g1, g2 := [Symbol(d1)] + r1, [Symbol(d2)] + r2;
    PeelSymbol(d1, d2, r1, r2);
    var f1, f2 := [Symbol(m1)] + g1, [Symbol(m2)] + g2;
    PeelSymbol(m1, m2, g1, g2);
    PeelSymbol(y1 - YEAR_EPOCH, y2 - YEAR_EPOCH, f1, f2);
  }

  /** Strings laid out as a hash of `a` and of `b` compare as the truncated
      date-times do, once their time-of-day parts are known to. */
  lemma LayoutOrder(a: DateTime, b: DateTime, t: Tier, ha: string, ea: string, xa: string,
                    hb: string, eb: string, xb: string)
    requires a.Valid() && YEAR_EPOCH <= a.year <= YEAR_MAX
    requires b.Valid() && YEAR_EPOCH <= b.year <= YEAR_MAX
    requires ha == [Symbol(a.year - YEAR_EPOCH), Symbol(a.month), Symbol(a.day)] + ea + xa
    requires hb == [Symbol(b.year - YEAR_EPOCH), Symbol(b.month), Symbol(b.day)] + eb + xb
    requires |ea + xa| == |eb + xb|
    requires var ta, tb := Truncate(a, t), Truncate(b, t);
      && (LexLess(ea + xa, eb + xb) <==>
            (ta.secondOfDay < tb.secondOfDay
             || (ta.secondOfDay == tb.secondOfDay && ta.nano < tb.nano)))
      && (ea + xa == eb + xb <==> ta.secondOfDay == tb.secondOfDay && ta.nano == tb.nano)
    ensures LexLess(ha, hb) <==> Before(Truncate(a, t), Truncate(b, t))
    ensures ha == hb <==> Truncate(a, t) == Truncate(b, t)
  {
    NestedOrder(ha, a.year, a.month, a.day, ea, xa, hb, b.year, b.month, b.day, eb, xb);
  }

  /** Hashes of one tier sort as the date-times they decode to: the string
      order is the chronological order of the tier-truncated values, and two
      hashes are equal exactly when the truncated values are. */
  lemma HashOrder(a: DateTime, b: DateTime, t: Tier)
    requires a.Valid() && YEAR_EPOCH <= a.year <= YEAR_MAX
    requires b.Valid() && YEAR_EPOCH <= b.year <= YEAR_MAX
    ensures LexLess(Hash(a, t).value, Hash(b, t).value) <==> Before(Truncate(a, t), Truncate(b, t))
    ensures Hash(a, t) == Hash(b, t) <==> Truncate(a, t) == Truncate(b, t)
  {
    var ea, eb := Encode(a.secondOfDay, 3), Encode(b.secondOfDay, 3);
    var xa, xb := HashSuffix(t, Extract(t, a)), HashSuffix(t, Extract(t, b));
    HashSpelled(a, t);
    HashSpelled(b, t);
    TimeOfDayOrder(a, b, t);
    LayoutOrder(a, b, t, Hash(a, t).value, ea, xa, Hash(b, t).value, eb, xb);
  }


  /** `hashMillis` read twice from a clock that does not go backwards: a
      date-time at or after another never hashes lexicographically below it. */
  lemma HashNonDecreasing(a: DateTime, b: DateTime, t: Tier)
    requires a.Valid() && YEAR_EPOCH <= a.year <= YEAR_MAX
    requires b.Valid() && YEAR_EPOCH <= b.year <= YEAR_MAX
    requires !Before(b, a)
    ensures !LexLess(Hash(b, t).value, Hash(a, t).value)
  {
    HashOrder(b, a, t);
    if a.year == b.year && a.month == b.month && a.day == b.day
      && a.secondOfDay == b.secondOfDay {
      RoundDownMonotone(a.nano, b.nano, t.Period());
    }
  }

  /** A tier's hash with one more symbol appended fails the tier's suffix check. */
  lemma ExtraSymbolRejected(v: DateTime, t: Tier, c: char)
    requires v.Valid() && YEAR_EPOCH <= v.year <= YEAR_MAX
    ensures Unhash(Some(Hash(v, t).value + [c]), t) == Failure(SubsecondMismatch(t))
  {
    var h := Hash(v, t).value;
    var s := h + [c];
    assert s[..MIN_CHARS] == h[..MIN_CHARS];
  }

  /** A string whose first character is outside the alphabet fails the core
      check, whatever follows. */
  lemma ForeignLeadRejected(s: string, t: Tier)
    requires |s| > 0 && !IsDigit(s[0])
    ensures Unhash(Some(s), t) == Failure(PatternMismatch)
  {
    if |s| >= MIN_CHARS {
      assert s[..MIN_CHARS][0] == s[0];
    }
  }
}
