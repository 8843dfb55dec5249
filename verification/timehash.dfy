/** The composite codec (`TimeHashUtils`): six core symbols for year offset,
    month, day and second of day, then the tier's sub-second suffix. */
module TimeHash {
  import opened Wrappers
  import opened Alphabet
  import opened Radix
  import opened DateTimes
  import opened SubSecond

  const YEAR_EPOCH: int := 2014
  const YEAR_MAX: int := YEAR_EPOCH + RADIX - 1
  /** Length of the core: one symbol each for year offset, month and day,
      three for the second of day. */
  const MIN_CHARS: nat := 6

  /** Why a call fails. The first four are the `IllegalArgumentException`s the
      codec throws itself; `InvalidField` is the date-time library rejecting a
      decoded month, day, second of day or sub-second value; `TierIndexOutOfBounds`
      is the array index failure of the unguarded tier lookup. */
  datatype Error =
    | YearBeforeEpoch
    | YearAfterMax
    | PatternMismatch
    | SubsecondMismatch(tier: Tier)
    | InvalidField
    | TierIndexOutOfBounds

  /** `hash(LocalDateTime, SubSecond)`. */
  function Hash(v: DateTime, t: Tier): (r: Result<string, Error>)
    requires v.Valid()
    ensures r == Failure(YearBeforeEpoch) <==> v.year < YEAR_EPOCH
    ensures r == Failure(YearAfterMax) <==> v.year > YEAR_MAX
    ensures r.Success? <==> YEAR_EPOCH <= v.year <= YEAR_MAX
    ensures r.Success? ==> |r.value| == MIN_CHARS + t.Width() && AllDigits(r.value)
  {
    if v.year < YEAR_EPOCH then Failure(YearBeforeEpoch)
    else if v.year > YEAR_MAX then Failure(YearAfterMax)
    else
      DigitValueOfChar(v.year - YEAR_EPOCH);
      DigitValueOfChar(v.month);
      DigitValueOfChar(v.day);
      var core := [Symbol(v.year - YEAR_EPOCH), Symbol(v.month), Symbol(v.day)]
        + Encode(v.secondOfDay, 3);
      Success(core + HashSuffix(t, Extract(t, v)))
  }

  /** The tiers `hash(LocalDateTime)` chooses from, coarsest first. */
  const AUTO_TIERS: seq<Tier> := [Trim, Millis, Nanos]

  /** The tier `hash(LocalDateTime)` picks: TRIM for a whole second, MILLIS for
      a whole millisecond, NANOS otherwise. That is the coarsest of the three
      whose period divides the nano of second, so no precision is lost. */
  function AutoTier(nano: int): (t: Tier)
    requires 0 <= nano < NANOS_PER_SECOND
    ensures t in AUTO_TIERS && nano % t.Period() == 0
    ensures forall i :: 0 <= i < |AUTO_TIERS| && nano % AUTO_TIERS[i].Period() == 0 ==>
      AUTO_TIERS[i].Period() <= t.Period()
  {
    if nano == 0 then Trim
    else if nano % 1_000_000 == 0 then Millis
    else Nanos
  }

  /** `hash(LocalDateTime)`: the hash at the automatic tier, so its length
      tells whole seconds (6), whole milliseconds (8) and the rest (12) apart. */
  function HashAuto(v: DateTime): (r: Result<string, Error>)
    requires v.Valid()
    ensures r == Hash(v, AutoTier(v.nano))
    ensures r.Success? <==> YEAR_EPOCH <= v.year <= YEAR_MAX
    ensures r.Success? ==> (|r.value| == MIN_CHARS <==> v.nano == 0)
    ensures r.Success? ==> (|r.value| == MIN_CHARS + 2 <==> v.nano != 0 && v.nano % 1_000_000 == 0)
    ensures r.Success? ==> (|r.value| == MIN_CHARS + 6 <==> v.nano % 1_000_000 != 0)
  {
    Hash(v, AutoTier(v.nano))
  }

  /** `validate(hash, ...)` for the core: present, at least six symbols long, and
      its first six characters all from the alphabet. */
  predicate CoreMatches(s: Option<string>) {
    s.Some? && |s.value| >= MIN_CHARS && AllDigits(s.value[..MIN_CHARS])
  }

  /** The core's date-time: `LocalDateTime.of` at midnight of the decoded date,
      then `with(SECOND_OF_DAY, …)`, or None where the date-time library rejects
      the month, the day or the second of day. */
  function DecodeCore(core: string): (r: Option<DateTime>)
    requires |core| == MIN_CHARS && AllDigits(core)
    ensures AllDigits(core[3..])
    ensures r.Some? <==>
      && 1 <= DigitValue(core[1]) <= 12
      && 1 <= DigitValue(core[2]) <= DaysInMonth(YEAR_EPOCH + DigitValue(core[0]), DigitValue(core[1]))
      && Parse(core[3..]) < SECONDS_PER_DAY
    ensures r.Some? ==> r.value.Valid() && r.value == DateTime(YEAR_EPOCH + DigitValue(core[0]),
      DigitValue(core[1]), DigitValue(core[2]), Parse(core[3..]), 0)
  {
    assert AllDigits(core[3..]) by {
      assert forall i :: 0 <= i < 3 ==> core[3..][i] == core[3 + i];
    }
    var date := Of(YEAR_EPOCH + DigitValue(core[0]), DigitValue(core[1]), DigitValue(core[2]));
    if date.None? then None
    else WithSecondOfDay(date.value, Parse(core[3..]))
  }

  /** `unhash(String, SubSecond)`: check the core, check the suffix against the
      tier, then rebuild the date-time from the core and apply the suffix. */
  function Unhash(s: Option<string>, t: Tier): (r: Result<DateTime, Error>)
    ensures r == Failure(PatternMismatch) <==> !CoreMatches(s)
    ensures r == Failure(SubsecondMismatch(t)) <==>
      CoreMatches(s) && !Matches(t, s.value[MIN_CHARS..])
    ensures r.Success? ==> r.value.Valid() && YEAR_EPOCH <= r.value.year <= YEAR_MAX
  {
    if !CoreMatches(s) then Failure(PatternMismatch)
    else
      var h := s.value;
      var suffix := h[MIN_CHARS..];
      if !Matches(t, suffix) then Failure(SubsecondMismatch(t))
      else
        match DecodeCore(h[..MIN_CHARS])
        case None => Failure(InvalidField)
        case Some(base) =>
          match UnhashSuffix(t, suffix, base)
          case None => Failure(InvalidField)
          case Some(result) => Success(result)
  }

  /** `String.length()`: the number of UTF-16 code units, which counts a
      character above U+FFFF twice. */
  function Utf16Length(s: string): (n: nat)
    ensures n >= |s|
  {
    if |s| == 0 then 0
    else (if s[0] as int >= 0x1_0000 then 2 else 1) + Utf16Length(s[1..])
  }

  /** `unhash(String)` exactly as written: the length guard admits up to
      MIN_CHARS + 7 = 13 UTF-16 units, but the tier table has entries only for
      lengths 6 to 12. On a string with a character above U+FFFF, `Unhash`
      fails with the same error whether the core and suffix are cut at
      characters or at UTF-16 units, because such a character matches no
      pattern; only the tier choice depends on how the length is counted. */
  function UnhashAutoAsWritten(s: Option<string>): (r: Result<DateTime, Error>)
    ensures s.Some? && Utf16Length(s.value) == MIN_CHARS + |VALUES| ==> r == Failure(TierIndexOutOfBounds)
  {
    if s.None? then Failure(PatternMismatch)
    else
      var n := Utf16Length(s.value);
      if n < MIN_CHARS || n > MIN_CHARS + |VALUES| then Failure(PatternMismatch)
      else if n - MIN_CHARS >= |VALUES| then Failure(TierIndexOutOfBounds)
      else Unhash(s, VALUES[n - MIN_CHARS])
  }

  /** `unhash(String)` with the guard the lookup needs: the length selects the
      tier, and lengths with no tier are a pattern mismatch. */
  function UnhashAuto(s: Option<string>): (r: Result<DateTime, Error>)
    ensures s.None? || Utf16Length(s.value) < MIN_CHARS || Utf16Length(s.value) >= MIN_CHARS + |VALUES|
      ==> r == Failure(PatternMismatch)
    ensures r != Failure(TierIndexOutOfBounds)
  {
    if s.None? then Failure(PatternMismatch)
    else
      var n := Utf16Length(s.value);
      if n < MIN_CHARS || n >= MIN_CHARS + |VALUES| then Failure(PatternMismatch)
      else Unhash(s, VALUES[n - MIN_CHARS])
  }

  /** `v` with its nano of second rounded down to the tier's period. */
  function Truncate(v: DateTime, t: Tier): DateTime
  {
    v.(nano := v.nano - v.nano % t.Period())
  }
}
