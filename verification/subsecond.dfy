/** The precision tiers (`TimeHashUtils.SubSecond`): each tier reads one
    sub-second field, divides it by a multiplier, and writes the quotient as a
    fixed number of suffix symbols; decoding multiplies back and sets the field. */
module SubSecond {
  import opened Wrappers
  import opened Alphabet
  import opened Radix
  import opened DateTimes
  import opened Arithmetic

  /** The seven tiers in declaration order, coarsest first. */
  datatype Tier = Trim | MilliGroup | Millis | MicroGroup | NanoGroup | QuadNano | Nanos
  {
    /** Number of suffix symbols the tier writes. */
    function Width(): nat
    {
      match this
      case Trim => 0
      case MilliGroup => 1
      case Millis => 2
      case MicroGroup => 3
      case NanoGroup => 4
      case QuadNano => 5
      case Nanos => 6
    }

    /** The field the tier reads and writes; TRIM has none. */
    function Source(): Option<Field>
    {
      match this
      case Trim => None
      case MilliGroup | Millis => Some(MilliOfSecond)
      case MicroGroup => Some(MicroOfSecond)
      case NanoGroup | QuadNano | Nanos => Some(NanoOfSecond)
    }

    /** Divisor applied before encoding and factor applied after decoding
        (1 where the constructor leaves it out). */
    function Multiplier(): (m: nat)
      ensures m > 0
    {
      match this
      case MilliGroup => 25
      case MicroGroup => 10
      case NanoGroup => 200
      case QuadNano => 4
      case Trim | Millis | Nanos => 1
    }

    /** The period the class documentation gives for the tier, in nanoseconds:
        1 s, 25 ms, 1 ms, 10 us, 200 ns, 4 ns, 1 ns. */
    function Period(): (p: nat)
      ensures p > 0 && NANOS_PER_SECOND % p == 0
    {
      match this
      case Trim => 1_000_000_000
      case MilliGroup => 25_000_000
      case Millis => 1_000_000
      case MicroGroup => 10_000
      case NanoGroup => 200
      case QuadNano => 4
      case Nanos => 1
    }
  }

  /** `SubSecond.VALUES`. */
  const VALUES: seq<Tier> := [Trim, MilliGroup, Millis, MicroGroup, NanoGroup, QuadNano, Nanos]

  /** A tier's position in the table is its suffix width, so the width of a
      suffix names its tier and every tier is found at its own width. */
  lemma ValuesByWidth()
    ensures |VALUES| == 7
    ensures forall i :: 0 <= i < |VALUES| ==> VALUES[i].Width() == i
    ensures forall t: Tier :: t.Width() < |VALUES| && VALUES[t.Width()] == t
  {
  }

  /** The documented period is the multiplier in units of the tier's field. */
  lemma PeriodIsMultiplierTimesUnit(t: Tier)
    requires t.Source().Some?
    ensures t.Period() == t.Multiplier() * t.Source().value.Unit()
  {
  }

  /** `extract`: the tier's field of `v`, or 0 for TRIM. */
  function Extract(t: Tier, v: DateTime): (x: nat)
    requires v.Valid()
    ensures t.Trim? ==> x == 0
    ensures t.Source().Some? ==> x == Get(v, t.Source().value)
  {
    match t.Source()
    case None => 0
    case Some(f) => Get(v, f)
  }

  /** `hash(int)`: TRIM writes nothing; every other tier writes the value divided
      by its multiplier as `Width()` symbols. */
  function HashSuffix(t: Tier, value: nat): (s: string)
    ensures |s| == t.Width() && AllDigits(s)
  {
    if t.Trim? then "" else Encode(value / t.Multiplier(), t.Width())
  }

  /** `matches`: exactly `Width()` alphabet symbols (the empty string for TRIM). */
  predicate Matches(t: Tier, s: string) {
    |s| == t.Width() && AllDigits(s)
  }

  /** The tier's pattern, `[CHARS]{n}+` or `^$` for TRIM, accepts exactly the
      strings of `Width()` characters drawn from the alphabet. */
  lemma MatchesIff(t: Tier, s: string)
    ensures Matches(t, s) <==> |s| == t.Width() && forall i :: 0 <= i < |s| ==> s[i] in CHARS
  {
    forall i | 0 <= i < |s|
      ensures IsDigit(s[i]) <==> s[i] in CHARS
    {
      IsDigitIff(s[i]);
    }
  }

  /** `unhash(String, Temporal)`: TRIM returns `base` unchanged; every other
      tier sets its field to multiplier times the parsed suffix, which fails
      when that lies outside the field's range. */
  function UnhashSuffix(t: Tier, s: string, base: DateTime): (r: Option<DateTime>)
    requires Matches(t, s) && base.Valid()
    ensures t.Trim? ==> r == Some(base)
    ensures t.Source().Some? ==>
      (r.Some? <==> t.Multiplier() * Parse(s) <= t.Source().value.Max())
    ensures r.Some? ==> r.value.Valid() && r.value.(nano := base.nano) == base
    ensures r.Some? && t.Source().Some? ==>
      r.value.nano == t.Multiplier() * Parse(s) * t.Source().value.Unit()
  {
    match t.Source()
    case None => Some(base)
    case Some(f) => With(base, f, t.Multiplier() * Parse(s))
  }

  /** The largest suffix value a valid date-time produces still fits the
      tier's width (39 < 48, 999 < 48^2, 99999 < 48^3, 4999999 < 48^4,
      249999999 < 48^5, 999999999 < 48^6), so encoding drops no digit. */
  lemma SuffixFits(t: Tier, v: DateTime)
    requires v.Valid()
    ensures Extract(t, v) / t.Multiplier() < Power(t.Width())
  {
    PowerValues();
  }

  /** Encoding then decoding a suffix onto a midnight-nano base keeps the
      date-time's nano of second rounded down to the tier's period. */
  lemma SuffixRoundTrip(t: Tier, v: DateTime, base: DateTime)
    requires v.Valid() && base.Valid() && base.nano == 0
    ensures Matches(t, HashSuffix(t, Extract(t, v)))
    ensures UnhashSuffix(t, HashSuffix(t, Extract(t, v)), base)
         == Some(base.(nano := v.nano - v.nano % t.Period()))
  {
    if t.Source().Some? {
      var f, m := t.Source().value, t.Multiplier();
      var q := SuffixValue(t, v);
      var s := HashSuffix(t, Extract(t, v));
      assert Parse(s) == q by {
        ParseEncodeFits(q, t.Width());
      }
      assert m * q <= f.Max() && m * q * f.Unit() == v.nano - v.nano % t.Period() by {
        assert q == (v.nano / f.Unit()) / m;
        QuantizedNano(t, v.nano);
      }
      SuffixDecodes(t, s, base, q);
    }
  }

  /** A suffix holding `q` sets the tier's field to `q` multiplier steps. */
  lemma SuffixDecodes(t: Tier, s: string, base: DateTime, q: nat)
    requires Matches(t, s) && base.Valid() && t.Source().Some? && Parse(s) == q
    requires t.Multiplier() * q <= t.Source().value.Max()
    ensures UnhashSuffix(t, s, base)
         == Some(base.(nano := t.Multiplier() * q * t.Source().value.Unit()))
  {
  }



  /** Per tier: dividing the field by the multiplier and multiplying back
      rounds the nano of second down to the tier's period. */
  lemma QuantizedNano(t: Tier, n: int)
    requires 0 <= n < NANOS_PER_SECOND && t.Source().Some?
    ensures var f := t.Source().value;
      var q := (n / f.Unit()) / t.Multiplier();
      t.Multiplier() * q <= f.Max() && t.Multiplier() * q * f.Unit() == n - n % t.Period()
  {
    var f := t.Source().value;
    var m, u := t.Multiplier(), f.Unit();
    var q := (n / u) / m;
    PeriodIsMultiplierTimesUnit(t);
    DivDiv(n, u, m);
    assert m * q <= n / u by {
      assert n / u == m * q + (n / u) % m;
    }
    DivBound(n, u, f.Max());
  }


  /** A suffix that decodes is the one the tier writes for the decoded value:
      decoding is injective on the suffixes it accepts. */
  lemma SuffixCanonical(t: Tier, s: string, base: DateTime)
    requires Matches(t, s) && base.Valid() && UnhashSuffix(t, s, base).Some?
    ensures HashSuffix(t, Extract(t, UnhashSuffix(t, s, base).value)) == s
  {
    var r := UnhashSuffix(t, s, base).value;
    match t.Source()
    case None =>
    case Some(f) =>
      var m := t.Multiplier();
      var p := Parse(s);
      assert Get(r, f) == m * p;
      assert (m * p) / m == p;
      EncodeParse(s);
  }

  /** The number the tier writes into the suffix: the field divided by the
      multiplier, 0 for TRIM. */
  function SuffixValue(t: Tier, v: DateTime): (q: nat)
    requires v.Valid()
    ensures q < Power(t.Width())
    ensures q * t.Multiplier() <= 999_999_999
    ensures !t.Trim? ==> HashSuffix(t, Extract(t, v)) == Encode(q, t.Width())
  {
    SuffixFits(t, v);
    Extract(t, v) / t.Multiplier()
  }

  /** The rounded-down nano of second is a whole number of periods, and that
      number is exactly what the suffix holds. */
  lemma TruncatedNano(t: Tier, v: DateTime)
    requires v.Valid()
    ensures v.nano - v.nano % t.Period() == SuffixValue(t, v) * t.Period()
  {
    if !t.Trim? {
      var f := t.Source().value;
      var m, u := t.Multiplier(), f.Unit();
      var q := (v.nano / u) / m;
      assert SuffixValue(t, v) == q;
      QuantizedNano(t, v.nano);
      PeriodIsMultiplierTimesUnit(t);
      MulRegroup(m, q, u);
    }
  }

  lemma ScaleOrder(x: nat, y: nat, p: nat)
    requires p > 0
    ensures x * p < y * p <==> x < y
    ensures x * p == y * p <==> x == y
  {
    if x < y {
      MulLeftMonotone(x + 1, y, p);
    } else if y < x {
      MulLeftMonotone(y + 1, x, p);
    }
  }

  /** Suffixes of one tier compare as the rounded-down nanos of second do. */
  lemma SuffixOrder(t: Tier, a: DateTime, b: DateTime)
    requires a.Valid() && b.Valid()
    ensures var sa, sb := HashSuffix(t, Extract(t, a)), HashSuffix(t, Extract(t, b));
      var na, nb := a.nano - a.nano % t.Period(), b.nano - b.nano % t.Period();
      && (LexLess(sa, sb) <==> na < nb)
      && (sa == sb <==> na == nb)
  {
    var qa, qb := SuffixValue(t, a), SuffixValue(t, b);
    TruncatedNano(t, a);
    TruncatedNano(t, b);
    ScaleOrder(qa, qb, t.Period());
    if t.Trim? {
      assert !LexLess("", "");
    } else {
      EncodeOrderIff(qa, qb, t.Width());
      EncodeInjective(qa, qb, t.Width());
    }
  }
}
