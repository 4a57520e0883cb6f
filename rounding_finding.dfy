/** The places the write path rounds to before its zero test: the rule the
    source writes, which `DecimalSpec.RoundingPlaces` and the rest of the model
    follow, against the rule its precision scope suggests was intended.

    As written the places are `precision?.maximum ?? defaultPrecision.maximum`:
    the fallback happens field by field, so a call-site precision without a
    maximum still rounds at the instance default. The precision scope of the
    same call falls back for the whole policy, `precision ?? defaultPrecision`,
    and tells the engine to show up to `maximumAllowedFractionDigits` digits.
    A small value can then round to zero at the default places, take the zero
    branch and reach the engine as zero, although the engine was told to show
    every digit. */
module RoundingFinding {
  import opened Policies
  import opened NumberEngine
  import opened DecimalSpec

  /** The corrected places: the maximum of the same effective precision the
      precision scope installs, so a policy without a maximum is not rounded. */
  function RoundingPlacesCorrected(precision: Option<Precision>, defaultPrecision: Precision): Option<nat> {
    EffectivePrecision(precision, defaultPrecision).maximum
  }

  /** The engine call of the write path with the corrected rounding places. */
  function PlanCorrected(s: Settings, round: (real, nat) -> real, usesSignForZero: bool, c: Config,
                         value: real, abbreviation: Abbreviation, sign: Sign, precision: Option<Precision>): EngineCall
  {
    var roundedValue := RoundedValue(round, value, RoundingPlacesCorrected(precision, s.defaultPrecision));
    Seen(s, c, Scopes(roundedValue, value, abbreviation, sign, precision, usesSignForZero))
  }

  /** The two rules differ exactly when the call-site precision is given
      without a maximum while the instance default has one. */
  lemma CorrectionOnlyAffectsOpenMaximum(precision: Option<Precision>, defaultPrecision: Precision)
    ensures RoundingPlacesCorrected(precision, defaultPrecision) != RoundingPlaces(precision, defaultPrecision)
        <==> precision.Some? && precision.value.maximum.None? && defaultPrecision.maximum.Some?
  {
  }

  /** Everywhere else the corrected write path makes the very engine call the
      written one makes. */
  lemma CorrectionAgreesElsewhere(s: Settings, round: (real, nat) -> real, usesSignForZero: bool, c: Config,
                                  value: real, abbreviation: Abbreviation, sign: Sign, precision: Option<Precision>)
    requires !(precision.Some? && precision.value.maximum.None?)
    ensures PlanCorrected(s, round, usesSignForZero, c, value, abbreviation, sign, precision)
         == Plan(s, round, usesSignForZero, c, value, abbreviation, sign, precision)
  {
  }

  /** As written, `.maximum` precision on an instance with the default
      precision rounds at 2 places while the engine is told to show up to 16. */
  lemma AsWrittenPlacesDisagreeWithEngine(c: Config, s: Settings)
    requires s.defaultPrecision == DefaultPrecision && s.maximumAllowedFractionDigits == 16
    ensures RoundingPlaces(Some(MaximumPrecision), s.defaultPrecision) == Some(2)
    ensures PrecisionApplied(c, s, Some(MaximumPrecision)).maximumFractionDigits == 16
  {
  }

  /** As written, under `.maximum` precision and `.arrow` signs, 0.004 reaches
      the engine as 0 with the prefixes untouched, while 0.006 reaches it as
      0.006 under the arrow prefixes; both with up to 16 fraction digits
      allowed, so the smaller value is shown as zero and the larger in full. */
  lemma AsWrittenDropsSmallValues(s: Settings, round: (real, nat) -> real, c: Config)
    requires s.defaultPrecision == DefaultPrecision && s.maximumAllowedFractionDigits == 16
    requires round(0.004, 2) == 0.0 && round(0.006, 2) == 0.01
    ensures var small := Plan(s, round, false, c, 0.004, NoAbbreviation, ArrowSign, Some(MaximumPrecision));
      && small == EngineCall(PrecisionApplied(c, s, Some(MaximumPrecision)), 0.0)
      && small.config.maximumFractionDigits == 16
    ensures var large := Plan(s, round, false, c, 0.006, NoAbbreviation, ArrowSign, Some(MaximumPrecision));
      && large == EngineCall(PrecisionApplied(SignApplied(c, s, ArrowSign), s, Some(MaximumPrecision)), 0.006)
      && large.config.maximumFractionDigits == 16
  {
    ZeroUnsignedIgnoresSign(s, round, c, 0.004, NoAbbreviation, NoAbbreviation, ArrowSign, ArrowSign, Some(MaximumPrecision));
    NonZeroAbbreviates(s, round, false, c, 0.006, NoAbbreviation, ArrowSign, Some(MaximumPrecision));
  }

  /** Corrected: the value is tested for zero at exactly the places the
      engine is told to show, and is not rounded at all when the policy has no
      maximum and the engine may show up to `maximumAllowedFractionDigits`. */
  lemma RoundingPlacesMatchEngine(c: Config, s: Settings, precision: Option<Precision>)
    ensures var places := RoundingPlacesCorrected(precision, s.defaultPrecision);
      var shown := PrecisionApplied(c, s, precision).maximumFractionDigits;
      && (places.Some? ==> shown == places.value)
      && (places.None? ==> shown == s.maximumAllowedFractionDigits)
  {
  }

  /** Corrected: under `.maximum` precision and `.arrow` signs, 0.004 is not
      rounded away and reaches the engine unchanged under the arrow prefixes. */
  lemma CorrectedKeepsSmallValues(s: Settings, round: (real, nat) -> real, c: Config)
    ensures PlanCorrected(s, round, false, c, 0.004, NoAbbreviation, ArrowSign, Some(MaximumPrecision))
         == EngineCall(PrecisionApplied(SignApplied(c, s, ArrowSign), s, Some(MaximumPrecision)), 0.004)
  {
    var signed := SignApplied(c, s, ArrowSign);
    var b := Abbreviated(0.004, []);
    assert Scopes(0.004, 0.004, NoAbbreviation, ArrowSign, Some(MaximumPrecision), false)
        == InSign(ArrowSign, InPrecision(Some(MaximumPrecision), b));
    assert Seen(s, signed, InPrecision(Some(MaximumPrecision), b))
        == Seen(s, PrecisionApplied(signed, s, Some(MaximumPrecision)), b);
  }
}
