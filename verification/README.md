# TimeHashUtils in Dafny

A model of `com.ikueb.TimeHashUtils`, a codec that writes a `LocalDateTime` as a
short string over a fixed 48-symbol alphabet ("456789BCDFGHJKLMNPQRSTVWXYZbcdfghjklmnpqrstvwxyz")
and reads it back.

A hash has two parts:

- **A six-symbol core.** It holds one symbol each for the year offset from 2014, the month and the day, then three base-48 digits for the second of the day.
- **A suffix whose width depends on the precision tier** (`SubSecond`). The tiers are TRIM, MILLIGROUP, MILLIS, MICROGROUP, NANOGROUP, QUADNANO and NANOS, with widths 0 to 6.

Each tier reads one sub-second field (milli, micro or nano of second). It divides that field by its multiplier (25, 1, 10, 200, 4 or 1) and writes the quotient in fixed width. Decoding multiplies back.

The project has these modules:

| module | file | contents |
|---|---|---|
| `Wrappers` | `wrappers.dfy` | `Option` (a Java reference that may be null) and `Result` (a value or a thrown exception) |
| `Arithmetic` | `arith.dfy` | small non-linear arithmetic facts the proofs share |
| `Alphabet` | `alphabet.dfy` | the `CHARS` table, symbol lookup, its strict order, and `Arrays.binarySearch` over it |
| `Radix` | `radix.dfy` | `toHash` (fixed-width encoding), `parse` (positional decoding), and `String.compareTo` |
| `DateTimes` | `datetimes.dfy` | the slice of `java.time.LocalDateTime` the codec touches, with the library's range checks |
| `SubSecond` | `subsecond.dfy` | the precision tiers: `extract`, `hash`, `matches`, `unhash` |
| `TimeHash` | `timehash.dfy` | `hash(…)`, `unhash(…)` and `validate`, with every failure as a distinct `Error` |
| `TimeHashLaws` | `laws.dfy` | round trips, canonical forms, order preservation and the error cases |
| `Vectors` | `vectors.dfy` | the test suite's vectors, each derived from the model |

The alphabet literal has 48 symbols, so `RADIX` is 48 and `YEAR_MAX` is 2014 + 48 - 1 = 2061. The test suite agrees: it expects "Year after 2061" and rejects 2062.

`toHash` is modelled without a precondition. Like the Java loop, `Radix.Encode` keeps only the low `width` digits of a value that does not fit. `Radix.EncodeTruncates` and `Radix.ParseEncode` state that exactly. Every value the codec itself encodes does fit. `SubSecond.SuffixFits` covers the sub-second quotient. `TimeHashLaws.CoreRoundTrip` covers the second of day (86399 < 48^3), since decoding gets it back. The year offset, month and day are single symbols, and `Alphabet.Symbol` requires a value below 48.

## Model

| member | source | states |
|---|---|---|
| Alphabet.RadixIsAlphabetSize | src/main/java/com/ikueb/TimeHashUtils.java:24-26 | `RADIX` is the length of the alphabet literal, 48 |
| Alphabet.AdjacentIncreasing | src/main/java/com/ikueb/TimeHashUtils.java:24-25 | each alphabet symbol has a larger char code than the one before it, which `Arrays.binarySearch` requires |
| Alphabet.SymbolOrder | src/main/java/com/ikueb/TimeHashUtils.java:24-25 | two positions compare exactly as their symbols compare, and distinct positions hold distinct symbols |
| Alphabet.IsDigitIff | src/main/java/com/ikueb/TimeHashUtils.java:439-441 | a character passes the pattern's character class exactly when it occurs in `CHARS` |
| Alphabet.DigitValue | src/main/java/com/ikueb/TimeHashUtils.java:422-433 | `parse(char)`, the `binarySearch` lookup at power 0, gives the position of an alphabet symbol in `CHARS` |
| Alphabet.DigitValueOfChar | src/main/java/com/ikueb/TimeHashUtils.java:422-424 | looking up the symbol at position k gives back k, for every k below 48 |
| Alphabet.ZeroSymbol | src/main/java/com/ikueb/TimeHashUtils.java:349-353 | the padding symbol `CHARS[0]` is '4' |
| Alphabet.BinarySearch | src/main/java/com/ikueb/TimeHashUtils.java:431-433 | `Arrays.binarySearch` returns the symbol's position for an alphabet symbol; for any other char it returns `-(insertion point) - 1`, with every symbol before the insertion point smaller than the key and every symbol from it on larger |
| Radix.ToHash | src/main/java/com/ikueb/TimeHashUtils.java:335-353 | the right-to-left loop over a '4'-padded builder produces the most-significant-first fixed-width numeral, whose value is the input modulo 48^width |
| Radix.Parse | src/main/java/com/ikueb/TimeHashUtils.java:412-416 | a string of n alphabet symbols parses to a value below 48^n |
| Radix.ParseSnoc | src/main/java/com/ikueb/TimeHashUtils.java:412-416 | appending a symbol multiplies the parsed value by 48 and adds the symbol's digit (the positional sum with powers counted from the right) |
| Radix.ParseEncode | src/main/java/com/ikueb/TimeHashUtils.java:335-343 | parsing an encoding gives the encoded value modulo 48^width |
| Radix.ParseEncodeFits | src/main/java/com/ikueb/TimeHashUtils.java:412-433 | a value below 48^width survives encoding and parsing unchanged |
| Radix.EncodeParse | src/main/java/com/ikueb/TimeHashUtils.java:412-416 | every string of alphabet symbols is the encoding of its own parsed value at its own length |
| Radix.EncodeTruncates | src/main/java/com/ikueb/TimeHashUtils.java:338-341 | encoding drops the digits above the width: it depends only on the value modulo 48^width |
| Radix.EncodeInjective | src/main/java/com/ikueb/TimeHashUtils.java:335-343 | two values below 48^width have equal encodings only if they are equal |
| Radix.EncodeZero | src/main/java/com/ikueb/TimeHashUtils.java:349-353 | zero encodes as `width` copies of '4' |
| Radix.CompareToAntisymmetric | src/test/java/com/ikueb/TimeHashUtilsTest.java:198-199 | `compareTo` is antisymmetric, and it is zero exactly on equal strings |
| Radix.LexLessConcat | src/test/java/com/ikueb/TimeHashUtilsTest.java:198-199 | `String.compareTo` on two strings with equal-length first parts decides on the first parts, and on the second parts when the first parts are equal |
| Radix.EncodeOrderIff | src/main/java/com/ikueb/TimeHashUtils.java:335-343 | for values below 48^width, fixed-width encoding orders strings lexicographically exactly as the values are ordered |
| DateTimes.Get | src/main/java/com/ikueb/TimeHashUtils.java:161 | `get(field)` is the whole number of field units in the nano of second, within the field's range |
| DateTimes.Of | src/main/java/com/ikueb/TimeHashUtils.java:380-381 | `LocalDateTime.of` at midnight succeeds exactly for a month 1-12 and a day within that month's length |
| DateTimes.WithSecondOfDay | src/main/java/com/ikueb/TimeHashUtils.java:382 | `with(SECOND_OF_DAY, v)` succeeds exactly for 0 <= v < 86400 and changes only the time of day |
| DateTimes.With | src/main/java/com/ikueb/TimeHashUtils.java:162 | `with(field, v)` on a sub-second field succeeds exactly when v is within the field's range, and then `get(field)` reads v back |
| SubSecond.ValuesByWidth | src/main/java/com/ikueb/TimeHashUtils.java:104-140 | the seven tiers sit in `VALUES` at the index equal to their suffix width, so a suffix width names exactly one tier |
| SubSecond.PeriodIsMultiplierTimesUnit | src/main/java/com/ikueb/TimeHashUtils.java:105-138 | each tier's documented precision (25 ms, 1 ms, 10 us, 200 ns, 4 ns, 1 ns) is its multiplier times the unit of its field |
| SubSecond.Extract | src/main/java/com/ikueb/TimeHashUtils.java:185-187 | `extract` reads the tier's field from the date-time, and TRIM reads 0 |
| SubSecond.HashSuffix | src/main/java/com/ikueb/TimeHashUtils.java:193-195 | a tier's suffix has exactly the tier's width, all alphabet symbols |
| SubSecond.MatchesIff | src/main/java/com/ikueb/TimeHashUtils.java:439-442 | a tier's pattern (`[CHARS]{n}+`, or `^$` for TRIM) accepts exactly the strings of n alphabet characters |
| SubSecond.UnhashSuffix | src/main/java/com/ikueb/TimeHashUtils.java:217-219 | TRIM returns the base date-time unchanged; any other tier succeeds exactly when multiplier times the parsed suffix fits the field, and then changes only the nano of second |
| SubSecond.SuffixFits | src/main/java/com/ikueb/TimeHashUtils.java:160-163 | the largest quotient each tier writes (39, 999, 99999, 4999999, 249999999, 999999999) is below 48^width, so no digit is dropped |
| SubSecond.SuffixValue | src/main/java/com/ikueb/TimeHashUtils.java:160-163 | the quotient a tier writes fits its width, and the quotient times the multiplier is at most 999,999,999, so the suffix the codec writes never overflows a Java `int` when parsed back |
| SubSecond.SuffixRoundTrip | src/main/java/com/ikueb/TimeHashUtils.java:160-163 | decoding a tier's suffix restores the nano of second rounded down to the tier's precision |
| SubSecond.SuffixCanonical | src/main/java/com/ikueb/TimeHashUtils.java:160-163 | a suffix that decodes is the one the tier writes for the result |
| SubSecond.TruncatedNano | src/main/java/com/ikueb/TimeHashUtils.java:160-163 | the rounded-down nano of second is the encoded quotient times the tier's precision |
| SubSecond.SuffixOrder | src/main/java/com/ikueb/TimeHashUtils.java:160-163 | suffixes of one tier compare and coincide exactly as the rounded-down nanos of second do |
| TimeHash.Hash | src/main/java/com/ikueb/TimeHashUtils.java:317-328 | fails with "Year before" exactly for years below 2014, fails with "Year after" exactly for years above 2061, and otherwise yields 6 + width alphabet symbols |
| TimeHash.AutoTier | src/main/java/com/ikueb/TimeHashUtils.java:282-290 | the automatic tier is the coarsest of TRIM, MILLIS and NANOS whose period divides the nano of second, so no precision is lost |
| TimeHash.HashAuto | src/main/java/com/ikueb/TimeHashUtils.java:282-290 | `hash(LocalDateTime)` is `hash` at the automatic tier; it succeeds for the same years, and its length is 6 exactly for whole seconds, 8 exactly for whole milliseconds, and 12 otherwise (partners: TimeHashLaws.HashAutoRoundTrip, Vectors.AutoTierVectors) |
| TimeHash.DecodeCore | src/main/java/com/ikueb/TimeHashUtils.java:380-382 | the core decodes exactly when the month, the day in that month and the second of day are in range, giving midnight of that date plus that second |
| TimeHash.Unhash | src/main/java/com/ikueb/TimeHashUtils.java:375-384 | the core-pattern error occurs exactly for null, short or non-alphabet cores; the suffix-pattern error occurs exactly when the core passes and the suffix does not; a success is a valid date-time between 2014 and 2061 |
| TimeHash.UnhashAutoAsWritten | src/main/java/com/ikueb/TimeHashUtils.java:362-365 | with `length()` counted in UTF-16 units as Java counts it, the tier lookup fails with an out-of-bounds index for every input of length 13 |
| TimeHash.UnhashAuto | src/main/java/com/ikueb/TimeHashUtils.java:362-365 | with the guard the lookup needs, every UTF-16 length outside 6-12 is a pattern error and the index never goes out of bounds |
| TimeHashLaws.HashIsCoreAndSuffix | src/main/java/com/ikueb/TimeHashUtils.java:326-327 | a hash is the six-symbol core followed by the tier's suffix |
| TimeHashLaws.HashLayout | src/main/java/com/ikueb/TimeHashUtils.java:326-327 | symbols 0, 1 and 2 decode to the year offset, the month and the day; symbols 3-5 parse to the second of day; the rest parses to the tier's quotient |
| TimeHashLaws.CoreRoundTrip | src/main/java/com/ikueb/TimeHashUtils.java:380-382 | decoding the core of a date-time gives that date-time with nano of second 0 |
| TimeHashLaws.CoreCanonical | src/main/java/com/ikueb/TimeHashUtils.java:380-382 | a core that decodes is the core of what it decodes to |
| TimeHashLaws.RoundTrip | src/main/java/com/ikueb/TimeHashUtils.java:375-384 | unhashing a tier's hash gives the date-time with its nano of second rounded down to the tier's precision |
| TimeHashLaws.Canonical | src/main/java/com/ikueb/TimeHashUtils.java:375-384 | every string `unhash` accepts is the hash of its result at the same tier, so each date-time has one spelling per tier |
| TimeHashLaws.HashIgnoresBelowPeriod | src/main/java/com/ikueb/TimeHashUtils.java:160-163 | rounding the nano of second down to the tier's precision does not change the hash |
| TimeHashLaws.HashAutoRoundTrip | src/main/java/com/ikueb/TimeHashUtils.java:282-290 | the program's `unhash(String)`, and the guarded decoder too, inverts the tier-less `hash` exactly |
| TimeHashLaws.UnhashAutoSelectsTier | src/main/java/com/ikueb/TimeHashUtils.java:362-365 | for UTF-16 lengths 6-12 the program's `unhash(String)`, and the guarded decoder too, is `unhash` at the tier whose width is the length minus 6 |
| TimeHashLaws.LengthDeterminesTier | src/main/java/com/ikueb/TimeHashUtils.java:362-365 | the program's `unhash(String)`, and the guarded decoder too, decodes any tier's hash with the tier that wrote it |
| TimeHashLaws.AsWrittenDiffersOnlyAtThirteen | src/main/java/com/ikueb/TimeHashUtils.java:362-365 | the as-written and the guarded tier-less `unhash` agree on every input except those of UTF-16 length 13, where the first fails with an out-of-bounds index and the second with a pattern error |
| TimeHashLaws.Utf16LengthIff | src/main/java/com/ikueb/TimeHashUtils.java:363-364 | `length()` equals the number of characters exactly when no character lies above U+FFFF |
| TimeHashLaws.CoreMatchesIff | src/main/java/com/ikueb/TimeHashUtils.java:391-406 | `validate` for the core passes exactly when the input is present, has at least six characters, and its first six are alphabet symbols |
| TimeHashLaws.UnhashStages | src/main/java/com/ikueb/TimeHashUtils.java:380-383 | once both patterns pass, the library rejects a field exactly when the core does not decode or the suffix does not fit its field |
| TimeHashLaws.InvalidFieldIff | src/main/java/com/ikueb/TimeHashUtils.java:380-383 | once both patterns pass, the library rejects a field exactly when the month, day, second of day or scaled suffix is out of range |
| TimeHashLaws.HashOrder | src/main/java/com/ikueb/TimeHashUtils.java:317-328 | within one tier, hashes compare with `compareTo` exactly as the rounded-down date-times compare chronologically, and two hashes are equal exactly when the rounded-down date-times are |
| TimeHashLaws.HashNonDecreasing | src/test/java/com/ikueb/TimeHashUtilsTest.java:193-200 | a later date-time never hashes to a smaller string at the same tier |
| TimeHashLaws.ExtraSymbolRejected | src/main/java/com/ikueb/TimeHashUtils.java:377-379 | a hash with any character appended fails the suffix pattern of its own tier |
| TimeHashLaws.ForeignLeadRejected | src/main/java/com/ikueb/TimeHashUtils.java:376 | a string whose first character is outside the alphabet fails the core pattern |
| Vectors.MinHashes | src/test/java/com/ikueb/TimeHashUtilsTest.java:41-48 | `TestCase.MIN` hashes to "455444" followed by one '4' per width step at each tier |
| Vectors.MinUnhashes | src/test/java/com/ikueb/TimeHashUtilsTest.java:41-48 | each MIN hash decodes to 2014-01-01T00:00 |
| Vectors.MaxHashes | src/test/java/com/ikueb/TimeHashUtilsTest.java:49-56 | `TestCase.MAX` hashes to "zJgnWz" … "zJgnWz7wQHnM" |
| Vectors.MaxUnhashes | src/test/java/com/ikueb/TimeHashUtilsTest.java:49-56 | each MAX hash decodes to 2061-12-31T23:59:59 with the listed nano of second |
| Vectors.AscHashes | src/test/java/com/ikueb/TimeHashUtilsTest.java:57-64 | `TestCase.ASC` hashes to "7569sQ" … "7569sQ78fTKF" |
| Vectors.AscUnhashes | src/test/java/com/ikueb/TimeHashUtilsTest.java:57-64 | each ASC hash decodes to 2017-01-02T03:45:06 with the listed nano of second |
| Vectors.DescHashes | src/test/java/com/ikueb/TimeHashUtilsTest.java:65-72 | `TestCase.DESC` hashes to "7FDH9f" … "7FDH9f5JWTnd" |
| Vectors.DescUnhashes | src/test/java/com/ikueb/TimeHashUtilsTest.java:65-72 | each DESC hash decodes to 2017-09-08T07:06:54 with the listed nano of second |
| Vectors.AutoTierVectors | src/test/java/com/ikueb/TimeHashUtilsTest.java:73-78 | the tier-less `hash` maps the NANOS, MILLIS and SECONDS cases to "455444444445", "7569sQNT" and "7FDH9f", and the program's `unhash(String)` maps them back |
| Vectors.YearRejections | src/test/java/com/ikueb/TimeHashUtilsTest.java:155-167 | 2013 is rejected as before the epoch and 2062 as after the last year |
| Vectors.ShapeRejections | src/test/java/com/ikueb/TimeHashUtilsTest.java:169-183 | null, "", each MIN hash with '4' appended, and each MIN hash with its first character replaced by '*' are rejected with the right pattern error |
| Vectors.ThirteenSymbolInput | src/main/java/com/ikueb/TimeHashUtils.java:363-364 | "4554444444444" passes the as-written length guard and indexes past the tier table |
| Vectors.SupplementaryCharacterInput | src/main/java/com/ikueb/TimeHashUtils.java:363-364 | eleven alphabet symbols followed by U+1F600 are 13 UTF-16 units, so they too pass the as-written guard and index past the tier table |

## Left out

- The clock overloads `utcNowMillis`, `hashMillis(Clock)` and `hash(Clock, SubSecond)` read the system time. They are not modelled. `hash` takes the date-time as a parameter, and the clock is only a way to obtain one. `TimeHashLaws.HashNonDecreasing` states the ordering that the wall-clock test relies on.
- Java `int` overflow and the `Math.pow` double cast in `parse(char, int)` are not modelled. Digits and their sums are unbounded naturals. `SubSecond.SuffixValue` shows that every suffix the codec itself writes parses back to at most 999,999,999 once multiplied. A hand-written six-symbol NANOS suffix whose value reaches 2^31 wraps in Java and may then land in range. The model reports it as an out-of-range field.
- Null `LocalDateTime` and null `SubSecond` arguments, which make the Java code throw `NullPointerException`, are not modelled; those parameters are never absent. A null hash string is modelled, as `None`.
- `Radix.CompareTo` compares whole characters, while Java's `compareTo` compares UTF-16 units. The two orders differ only between a character above U+FFFF and one from U+E000 to U+FFFF. They agree on every string the codec writes, and all the order lemmas are about such strings.
- The regular expressions are modelled as predicates ("exactly n alphabet symbols"), not as `java.util.regex` patterns. Exception messages are not modelled; each error is a distinct `Error` constructor.
- The double-valued `subSecond % 1e6` in `hash(LocalDateTime)` is modelled as integer remainder. The two agree for every nano of second.
- `java.time` is reduced to the fields the codec reads and writes and to the range checks it triggers:
  - the date-time is a record of year, month, day, second of day and nano of second;
  - months have proleptic Gregorian lengths;
  - every `DateTimeException` from `of` or `with` becomes the single `InvalidField` error.

  `LocalDateTime`'s own year limits (±999,999,999) are not modelled. Every year the codec can decode lies between 2014 and 2061.
- The `pattern()` accessor and the stored regex of each tier are not modelled separately. `SubSecond.Matches` is the predicate they implement.
- `toHash` with a negative value can throw in Java, because `remaining % RADIX` can be a negative array index. The model's values are naturals, and every caller passes a non-negative field.

## Findings

| source | as written | input that shows it | evidently intended | confidence | as-written member | corrected member |
|---|---|---|---|---|---|---|
| src/main/java/com/ikueb/TimeHashUtils.java:363-364 | `unhash(String)` accepts lengths up to `MIN_CHARS + VALUES.length` = 13, then reads `VALUES[length - 6]` | "4554444444444" (13 symbols, so 13 UTF-16 units) reaches `VALUES[7]` and throws `ArrayIndexOutOfBoundsException` | reject lengths above 12 (`<` instead of `<=`) with the pattern error, like every other bad length | high (not executed) | TimeHash.UnhashAutoAsWritten, Vectors.ThirteenSymbolInput | TimeHash.UnhashAuto, TimeHashLaws.AsWrittenDiffersOnlyAtThirteen |
