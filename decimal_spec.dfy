/** What the numeric write path hands to the engine, as pure functions: how
    each scope rewrites the engine configuration, which abbreviation row is
    chosen, which scopes the zero test selects, and hence which configuration
    and which value reach the engine's rendering. */
module DecimalSpec {
  import opened Policies
  import opened Text
  import opened NumberEngine

  /** The formatter state the scopes read besides the engine fields. */
  datatype Settings = Settings(
    defaultPrecision: Precision,
    maximumAllowedFractionDigits: int,
    plusSign: Glyph,
    minusSign: Glyph)

  /** The one call the engine receives: its configuration at that moment and
      the value it renders. */
  datatype EngineCall = EngineCall(config: Config, value: real)

  // ---------------------------------------------------------------- sign scope

  /** The text that stands for a plus or minus sign under `style`. */
  function StyleText(style: Style, localized: Glyph): string {
    match style
    case Hidden => ""
    case Localized => localized
    case Custom(text) => text
  }

  /** The text a zero value is marked with: only a custom style contributes. */
  function ZeroStyleText(style: Style): string {
    if style.Custom? then style.text else ""
  }

  /** The prefix rule: replace every occurrence of the locale glyph when the
      prefix has one, otherwise put the sign text in front. */
  function SignedPrefix(prefix: string, glyph: Glyph, text: string): string {
    if Contains(prefix, glyph) then ReplaceAll(prefix, glyph, text) else text + prefix
  }

  /** The configuration inside `with(sign:)`. */
  function SignApplied(c: Config, s: Settings, sign: Sign): Config {
    c.(positivePrefix := SignedPrefix(c.positivePrefix, s.plusSign, StyleText(sign.plus, s.plusSign)),
       negativePrefix := SignedPrefix(c.negativePrefix, s.minusSign, StyleText(sign.minus, s.minusSign)))
  }

  /** The configuration inside `with(zeroSign:)`. */
  function ZeroSignApplied(c: Config, zero: Style): Config {
    c.(positivePrefix := ZeroStyleText(zero) + c.positivePrefix)
  }

  // ----------------------------------------------------------- precision scope

  /** `precision ?? defaultPrecision`. */
  function EffectivePrecision(precision: Option<Precision>, defaultPrecision: Precision): Precision {
    precision.GetOr(defaultPrecision)
  }

  /** The configuration inside `with(precision:)`. */
  function PrecisionApplied(c: Config, s: Settings, precision: Option<Precision>): Config {
    var p := EffectivePrecision(precision, s.defaultPrecision);
    c.(minimumFractionDigits := p.minimum.GetOr(0),
       maximumFractionDigits := if p.maximum.Some? then p.maximum.value else s.maximumAllowedFractionDigits)
  }

  // -------------------------------------------------------- abbreviation scope

  /** The configuration inside `with(abbreviationSuffix:)`. */
  function SuffixApplied(c: Config, suffix: string): Config {
    c.(positiveSuffix := suffix + c.positiveSuffix, negativeSuffix := suffix + c.negativeSuffix)
  }

  function Abs(v: real): real {
    if v < 0.0 then -v else v
  }

  /** The index of the first row, in table order, whose magnitude `v` reaches;
      `None` exactly when no row is reached. */
  function FirstMatch(thresholds: seq<Threshold>, v: real): (r: Option<nat>)
    ensures r.Some? ==> r.value < |thresholds| && Abs(v) >= thresholds[r.value].value
    ensures r.Some? ==> forall j :: 0 <= j < r.value ==> Abs(v) < thresholds[j].value
    ensures r.None? <==> forall j :: 0 <= j < |thresholds| ==> Abs(v) < thresholds[j].value
    decreases |thresholds|
  {
    if thresholds == [] then None
    else if Abs(v) >= thresholds[0].value then Some(0)
    else match FirstMatch(thresholds[1..], v)
      case None => None
      case Some(i) => Some(i + 1)
  }

  // ----------------------------------------------------------------- the blocks

  /** The closures the pipeline passes to its scopes, as data: a block either
      calls the engine, runs `abbreviatedString`, or opens one more scope
      around a block. */
  datatype Block =
    | Render(value: real)
    | Abbreviated(value: real, thresholds: seq<Threshold>)
    | InSuffix(suffix: string, body: Block)
    | InPrecision(precision: Option<Precision>, body: Block)
    | InSign(sign: Sign, body: Block)
    | InZeroSign(zero: Style, body: Block)

  /** A measure under which `abbreviatedString` is larger than the scope and
      engine call it runs. */
  function Size(b: Block): nat {
    match b
    case Render(_) => 1
    case Abbreviated(_, _) => 3
    case InSuffix(_, body) => 1 + Size(body)
    case InPrecision(_, body) => 1 + Size(body)
    case InSign(_, body) => 1 + Size(body)
    case InZeroSign(_, body) => 1 + Size(body)
  }

  /** The engine call a block makes when it starts from configuration `c`. */
  function Seen(s: Settings, c: Config, b: Block): EngineCall
    decreases b
  {
    match b
    case Render(v) => EngineCall(c, v)
    case Abbreviated(v, thresholds) =>
      (match FirstMatch(thresholds, v)
       case Some(i) => EngineCall(SuffixApplied(c, thresholds[i].suffix), v / thresholds[i].value)
       case None => EngineCall(c, v))
    case InSuffix(suffix, body) => Seen(s, SuffixApplied(c, suffix), body)
    case InPrecision(precision, body) => Seen(s, PrecisionApplied(c, s, precision), body)
    case InSign(sign, body) => Seen(s, SignApplied(c, s, sign), body)
    case InZeroSign(zero, body) => Seen(s, ZeroSignApplied(c, zero), body)
  }

  // --------------------------------------------------------------- the pipeline

  /** The places the value is rounded to before the zero test,
      `precision?.maximum ?? defaultPrecision.maximum`: the fallback to the
      instance default happens for the maximum alone, so a call-site
      precision without a maximum still rounds at the default's maximum. */
  function RoundingPlaces(precision: Option<Precision>, defaultPrecision: Precision): Option<nat> {
    if precision.Some? && precision.value.maximum.Some? then precision.value.maximum
    else defaultPrecision.maximum
  }

  /** The value compared with zero: rounded when places are given, else as is. */
  function RoundedValue(round: (real, nat) -> real, value: real, places: Option<nat>): real {
    if places.Some? then round(value, places.value) else value
  }

  /** The scopes chosen after the zero test, with the guards of
      XFormatter/XFormatter+Decimal.swift: `guard roundedValue == .zero else`
      for the non-zero path, then `guard usesSignForZero else`. */
  function Scopes(roundedValue: real, value: real, abbreviation: Abbreviation, sign: Sign,
                  precision: Option<Precision>, usesSignForZero: bool): Block
  {
    if roundedValue != 0.0 then
      InSign(sign, InPrecision(precision, Abbreviated(value, abbreviation.thresholds)))
    else if !usesSignForZero then
      InPrecision(precision, Render(roundedValue))
    else
      InZeroSign(sign.zero, InPrecision(precision, Render(roundedValue)))
  }

  /** The same choice with the guards of Formatter/XFormatter+Decimal.swift:
      `guard roundedValue != .zero else` holds the zero path, split by `if`. */
  function ScopesFlippedGuard(roundedValue: real, value: real, abbreviation: Abbreviation, sign: Sign,
                              precision: Option<Precision>, usesSignForZero: bool): Block
  {
    if roundedValue == 0.0 then
      if usesSignForZero then InZeroSign(sign.zero, InPrecision(precision, Render(roundedValue)))
      else InPrecision(precision, Render(roundedValue))
    else
      InSign(sign, InPrecision(precision, Abbreviated(value, abbreviation.thresholds)))
  }

  /** The engine call one `string(from:abbreviation:sign:precision:)` makes. */
  function Plan(s: Settings, round: (real, nat) -> real, usesSignForZero: bool, c: Config,
                value: real, abbreviation: Abbreviation, sign: Sign, precision: Option<Precision>): EngineCall
  {
    var roundedValue := RoundedValue(round, value, RoundingPlaces(precision, s.defaultPrecision));
    Seen(s, c, Scopes(roundedValue, value, abbreviation, sign, precision, usesSignForZero))
  }

  // ------------------------------------------------------------------ lemmas

  /** Both copies of the pipeline choose the same scopes for every input,
      although their zero guards are written with opposite polarity. */
  lemma FlippedGuardAgrees(roundedValue: real, value: real, abbreviation: Abbreviation, sign: Sign,
                           precision: Option<Precision>, usesSignForZero: bool)
    ensures Scopes(roundedValue, value, abbreviation, sign, precision, usesSignForZero)
         == ScopesFlippedGuard(roundedValue, value, abbreviation, sign, precision, usesSignForZero)
  {
  }

  /** A value that rounds to zero, without sign-for-zero, reaches the engine
      as the rounded zero under the precision scope alone: the sign policy and
      the abbreviation table make no difference. */
  lemma ZeroUnsignedIgnoresSign(s: Settings, round: (real, nat) -> real, c: Config, value: real,
                                abbreviation: Abbreviation, abbreviation': Abbreviation,
                                sign: Sign, sign': Sign, precision: Option<Precision>)
    requires RoundedValue(round, value, RoundingPlaces(precision, s.defaultPrecision)) == 0.0
    ensures Plan(s, round, false, c, value, abbreviation, sign, precision)
         == EngineCall(PrecisionApplied(c, s, precision), 0.0)
    ensures Plan(s, round, false, c, value, abbreviation, sign, precision)
         == Plan(s, round, false, c, value, abbreviation', sign', precision)
  {
    var rv := RoundedValue(round, value, RoundingPlaces(precision, s.defaultPrecision));
    var p := PrecisionApplied(c, s, precision);
    assert Seen(s, p, Render(rv)) == EngineCall(p, 0.0);
    assert Scopes(rv, value, abbreviation, sign, precision, false) == InPrecision(precision, Render(rv));
    assert Scopes(rv, value, abbreviation', sign', precision, false) == InPrecision(precision, Render(rv));
  }

  /** A value that rounds to zero, with sign-for-zero, reaches the engine as
      the rounded zero; of the prefixes and suffixes only the positive prefix
      differs, gaining the zero style's text in front. */
  lemma ZeroSignedMarksPositivePrefix(s: Settings, round: (real, nat) -> real, c: Config, value: real,
                                      abbreviation: Abbreviation, sign: Sign, precision: Option<Precision>)
    requires RoundedValue(round, value, RoundingPlaces(precision, s.defaultPrecision)) == 0.0
    ensures var call := Plan(s, round, true, c, value, abbreviation, sign, precision);
      && call.value == 0.0
      && call.config.positivePrefix == ZeroStyleText(sign.zero) + c.positivePrefix
      && call.config.negativePrefix == c.negativePrefix
      && call.config.positiveSuffix == c.positiveSuffix
      && call.config.negativeSuffix == c.negativeSuffix
      && call.config == PrecisionApplied(ZeroSignApplied(c, sign.zero), s, precision)
  {
    var rv := RoundedValue(round, value, RoundingPlaces(precision, s.defaultPrecision));
    var z := ZeroSignApplied(c, sign.zero);
    var p := PrecisionApplied(z, s, precision);
    assert Seen(s, p, Render(rv)) == EngineCall(p, 0.0);
    assert Seen(s, z, InPrecision(precision, Render(rv))) == EngineCall(p, 0.0);
    assert Scopes(rv, value, abbreviation, sign, precision, true)
        == InZeroSign(sign.zero, InPrecision(precision, Render(rv)));
  }

  /** On the non-zero path the abbreviation row is chosen from the unrounded
      value; the engine receives that value divided by the row's magnitude,
      with the row's suffix in front of both suffixes, inside the precision
      and sign scopes; with no row reached it receives the value unchanged. */
  lemma NonZeroAbbreviates(s: Settings, round: (real, nat) -> real, usesSignForZero: bool, c: Config,
                           value: real, abbreviation: Abbreviation, sign: Sign, precision: Option<Precision>)
    requires RoundedValue(round, value, RoundingPlaces(precision, s.defaultPrecision)) != 0.0
    ensures var call := Plan(s, round, usesSignForZero, c, value, abbreviation, sign, precision);
      var inner := PrecisionApplied(SignApplied(c, s, sign), s, precision);
      var t := abbreviation.thresholds;
      match FirstMatch(t, value)
      case Some(i) => call == EngineCall(SuffixApplied(inner, t[i].suffix), value / t[i].value)
      case None => call == EngineCall(inner, value)
  {
    var rv := RoundedValue(round, value, RoundingPlaces(precision, s.defaultPrecision));
    var signed := SignApplied(c, s, sign);
    var inner := PrecisionApplied(signed, s, precision);
    var b := Abbreviated(value, abbreviation.thresholds);
    assert Scopes(rv, value, abbreviation, sign, precision, usesSignForZero) == InSign(sign, InPrecision(precision, b));
    assert Seen(s, signed, InPrecision(precision, b)) == Seen(s, inner, b);
  }

  /** With the empty table a non-zero value reaches the engine unchanged and
      the suffixes are left alone. */
  lemma NoAbbreviationFormatsValue(s: Settings, round: (real, nat) -> real, usesSignForZero: bool,
                                   c: Config, value: real, sign: Sign, precision: Option<Precision>)
    requires RoundedValue(round, value, RoundingPlaces(precision, s.defaultPrecision)) != 0.0
    ensures var call := Plan(s, round, usesSignForZero, c, value, NoAbbreviation, sign, precision);
      call.value == value && call.config.positiveSuffix == c.positiveSuffix
      && call.config.negativeSuffix == c.negativeSuffix
  {
    NonZeroAbbreviates(s, round, usesSignForZero, c, value, NoAbbreviation, sign, precision);
  }

  /** In a table of decreasing magnitudes the chosen row is the largest one
      the value reaches. */
  lemma LargestThresholdWins(thresholds: seq<Threshold>, v: real, j: nat)
    requires Descending(thresholds)
    requires FirstMatch(thresholds, v).Some?
    requires j < |thresholds| && thresholds[j].value <= Abs(v)
    ensures thresholds[j].value <= thresholds[FirstMatch(thresholds, v).value].value
  {
  }

  /** The precision scope writes the digit bounds, the suffix scope the
      suffixes, and the sign and zero-sign scopes prefixes; any two of them
      that write different fields build the same configuration in either
      nesting order. (The sign and zero-sign scopes both write the positive
      prefix; the pipeline never nests one in the other.) */
  lemma ScopesCommute(c: Config, s: Settings, sign: Sign, zero: Style, precision: Option<Precision>, suffix: string)
    ensures PrecisionApplied(SignApplied(c, s, sign), s, precision) == SignApplied(PrecisionApplied(c, s, precision), s, sign)
    ensures SuffixApplied(SignApplied(c, s, sign), suffix) == SignApplied(SuffixApplied(c, suffix), s, sign)
    ensures SuffixApplied(PrecisionApplied(c, s, precision), suffix) == PrecisionApplied(SuffixApplied(c, suffix), s, precision)
    ensures PrecisionApplied(ZeroSignApplied(c, zero), s, precision) == ZeroSignApplied(PrecisionApplied(c, s, precision), zero)
    ensures SuffixApplied(ZeroSignApplied(c, zero), suffix) == ZeroSignApplied(SuffixApplied(c, suffix), zero)
  {
  }

  /** `.localized` leaves a prefix that already holds the glyph as it is, and
      puts the glyph in front of one that does not. */
  lemma {:induction false} LocalizedSignKeepsGlyph(prefix: string, glyph: Glyph)
    ensures SignedPrefix(prefix, glyph, StyleText(Localized, glyph))
         == if Contains(prefix, glyph) then prefix else glyph + prefix
  {
    if Contains(prefix, glyph) {
      ReplaceAllSelf(prefix, glyph);
    }
  }

  /** With a one-character locale glyph and a sign text free of it, the signed
      prefix no longer shows the locale glyph, and keeps every other character
      of a prefix that lacked it. */
  lemma {:induction false} SignedPrefixReplacesGlyph(prefix: string, g: char, text: string)
    requires g !in text
    ensures g !in SignedPrefix(prefix, [g], text)
    ensures !Contains(prefix, [g]) ==> SignedPrefix(prefix, [g], text) == text + prefix
  {
    ContainsChar(prefix, g);
    if Contains(prefix, [g]) {
      ReplaceAllRemovesChar(prefix, g, text);
    }
  }

  /** The prefix rule on the en_US currency prefixes "$" and "-$" with the
      glyphs "+" and "-". */
  lemma CurrencyPrefixExamples()
    ensures SignedPrefix("$", "+", StyleText(Custom("▲"), "+")) == "▲$"
    ensures SignedPrefix("-$", "-", StyleText(Custom("▼"), "-")) == "▼$"
    ensures SignedPrefix("-$", "-", StyleText(Hidden, "-")) == "$"
    ensures SignedPrefix("$", "+", StyleText(Localized, "+")) == "+$"
    ensures SignedPrefix("-$", "-", StyleText(Localized, "-")) == "-$"
  {
    assert Contains("-$", "-") by { assert StartsWith("-$", "-"); }
    assert !Contains("$", "+") by {
      assert !StartsWith("$", "+") by { assert "$"[..1][0] != "+"[0]; }
      assert !Contains("$"[1..], "+");
    }
    assert ReplaceAll("-$", "-", "▼") == "▼" + ReplaceAll("$", "-", "▼");
    assert ReplaceAll("-$", "-", "") == ReplaceAll("$", "-", "");
    assert ReplaceAll("$", "-", "▼") == "$" by { assert "$"[1..] == []; }
    assert ReplaceAll("$", "-", "") == "$" by { assert "$"[1..] == []; }
    assert ReplaceAll("-$", "-", "-") == "-$";
  }

  /** The precision scope's digit bounds for the policies the decimal tests
      use, with the instance defaults. */
  lemma PrecisionScopeExamples(c: Config, s: Settings)
    requires s.defaultPrecision == DefaultPrecision && s.maximumAllowedFractionDigits == 16
    ensures PrecisionApplied(c, s, None).minimumFractionDigits == 0
    ensures PrecisionApplied(c, s, None).maximumFractionDigits == 2
    ensures PrecisionApplied(c, s, Some(MaximumPrecision)).minimumFractionDigits == 0
    ensures PrecisionApplied(c, s, Some(MaximumPrecision)).maximumFractionDigits == 16
    ensures PrecisionApplied(c, s, Some(ConstantPrecision(4))).minimumFractionDigits == 4
    ensures PrecisionApplied(c, s, Some(ConstantPrecision(4))).maximumFractionDigits == 4
    ensures PrecisionApplied(c, s, Some(Precision(Some(3), None))).minimumFractionDigits == 3
    ensures PrecisionApplied(c, s, Some(Precision(Some(3), None))).maximumFractionDigits == 16
    ensures PrecisionApplied(c, s, Some(Precision(None, Some(5)))).minimumFractionDigits == 0
    ensures PrecisionApplied(c, s, Some(Precision(None, Some(5)))).maximumFractionDigits == 5
  {
  }

  /** Sign-for-zero with `.custom("=")` puts "=" before the prefix; `.arrow`
      leaves the prefix alone. */
  lemma ZeroSignExamples(c: Config)
    ensures ZeroSignApplied(c, Custom("=")).positivePrefix == "=" + c.positivePrefix
    ensures ZeroSignApplied(c, ArrowSign.zero) == c
  {
  }

  /** Row selection on a k/m/b table with the decimal tests' values: 1 and
      432 stay, 1000 is 1k, 48729432 is 48.729432m. */
  lemma AbbreviationExamples()
    ensures var t := [Threshold(1000000000.0, "b"), Threshold(1000000.0, "m"), Threshold(1000.0, "k")];
      && FirstMatch(t, 1.0) == None
      && FirstMatch(t, 432.0) == None
      && FirstMatch(t, 1000.0) == Some(2) && 1000.0 / t[2].value == 1.0
      && FirstMatch(t, 48729432.0) == Some(1) && 48729432.0 / t[1].value == 48.729432
  {
  }

  /** Row selection on the same table with the currency tests' values,
      negative ones included: the row is chosen from the magnitude and the
      quotient keeps the sign. */
  lemma CurrencyAbbreviationExamples()
    ensures var t := [Threshold(1000000000.0, "b"), Threshold(1000000.0, "m"), Threshold(1000.0, "k")];
      && FirstMatch(t, 326.09734) == None
      && FirstMatch(t, 1432.99) == Some(2) && 1432.99 / t[2].value == 1.43299
      && FirstMatch(t, 100081.0) == Some(2) && 100081.0 / t[2].value == 100.081
      && FirstMatch(t, -42.8111) == None
      && FirstMatch(t, -4239.8111) == Some(2) && -4239.8111 / t[2].value == -4.2398111
  {
  }
}
