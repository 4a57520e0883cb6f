/** The `XFormatter` class: its configuration, the engine it owns, the read
    path, and the numeric write path with its four save–mutate–restore
    scopes. The closure each scope runs is a `Block`; `Run` is the call
    `block()`. */
module Formatter {
  import opened Policies
  import opened Text
  import opened NumberEngine
  import opened DecimalSpec

  class XFormatter {
    var usesGroupingSeparator: bool
    var defaultPrecision: Precision
    var maximumAllowedFractionDigits: int
    var usesSignForZero: bool
    var invalidValueString: string

    /** The engine this formatter configures and calls. */
    const numberFormatter: NumberFormatter
    /** The decimal library's `rounded(toPlaces:)`, which is not modelled. */
    const rounded: (real, nat) -> real

    /** The part of this formatter's state that the scopes consult. */
    function Settings(): Settings
      reads this
    {
      DecimalSpec.Settings(defaultPrecision, maximumAllowedFractionDigits,
                           numberFormatter.plusSign, numberFormatter.minusSign)
    }

    /** What the caller gets for an engine call: the engine's text, or the
        invalid-value placeholder when the engine fails. */
    function Output(call: EngineCall): string
      reads this
    {
      numberFormatter.render(call.config, call.value).GetOr(invalidValueString)
    }

    /** `init()`. The stored defaults are set; the `didSet` of
        `usesGroupingSeparator` does not run for its initial value, so the
        engine keeps whatever grouping setting it had. */
    constructor (numberFormatter: NumberFormatter, rounded: (real, nat) -> real)
      ensures this.numberFormatter == numberFormatter && this.rounded == rounded
      ensures !usesGroupingSeparator
      ensures defaultPrecision == DefaultPrecision
      ensures maximumAllowedFractionDigits == 16
      ensures !usesSignForZero
      ensures invalidValueString == "--"
      ensures numberFormatter.Snapshot() == old(numberFormatter.Snapshot())
    {
      usesGroupingSeparator := false;
      defaultPrecision := DefaultPrecision;
      maximumAllowedFractionDigits := 16;
      usesSignForZero := false;
      invalidValueString := "--";
      this.numberFormatter := numberFormatter;
      this.rounded := rounded;
    }

    /** Assigning `usesGroupingSeparator`: the `didSet` copies the new value
        into the engine and touches nothing else. */
    method SetUsesGroupingSeparator(value: bool)
      modifies this, numberFormatter
      ensures usesGroupingSeparator == value
      ensures numberFormatter.Snapshot() == old(numberFormatter.Snapshot()).(usesGroupingSeparator := value)
      ensures defaultPrecision == old(defaultPrecision)
      ensures maximumAllowedFractionDigits == old(maximumAllowedFractionDigits)
      ensures usesSignForZero == old(usesSignForZero)
      ensures invalidValueString == old(invalidValueString)
    {
      usesGroupingSeparator := value;
      numberFormatter.usesGroupingSeparator := usesGroupingSeparator;
    }

    // ------------------------------------------------------------ read path

    /** `number(from:)`: the engine's parse, unchanged. */
    method NumberFrom(s: string) returns (r: Option<real>)
      ensures r == numberFormatter.parse(s)
    {
      r := numberFormatter.NumberFrom(s);
    }

    /** `decimal(from:)`: absent exactly when the engine cannot parse `s`,
        otherwise the parsed number. */
    method DecimalFrom(s: string) returns (r: Option<real>)
      ensures r.None? <==> numberFormatter.parse(s).None?
      ensures r.Some? ==> r.value == numberFormatter.parse(s).value
    {
      var number := NumberFrom(s);
      if number.None? {
        return None;
      }
      r := Some(number.value);
    }

    // ----------------------------------------------------------- write path

    /** `string(from:abbreviation:sign:precision:)` on a decimal value. The
        engine sees exactly the call `Plan` describes, the result is its text
        or the placeholder, and every engine field is as it was before. The
        zero test rounds at `RoundingPlaces`, the source's
        `precision?.maximum ?? defaultPrecision.maximum`. */
    method StringFrom(value: real, abbreviation: Abbreviation, sign: Sign, precision: Option<Precision>)
      returns (r: string)
      modifies numberFormatter
      ensures numberFormatter.Snapshot() == old(numberFormatter.Snapshot())
      ensures r == Output(Plan(Settings(), rounded, usesSignForZero, old(numberFormatter.Snapshot()),
                               value, abbreviation, sign, precision))
    {
      var roundedValue: real;
      var places := RoundingPlaces(precision, defaultPrecision);
      if places.Some? {
        roundedValue := rounded(value, places.value);
      } else {
        roundedValue := value;
      }
      if roundedValue != 0.0 {
        r := WithSign(sign, InPrecision(precision, Abbreviated(value, abbreviation.thresholds)));
      } else if !usesSignForZero {
        r := WithPrecision(precision, Render(roundedValue));
      } else {
        r := WithZeroSign(sign.zero, InPrecision(precision, Render(roundedValue)));
      }
    }

    /** `block()`: runs the closure a scope was given. */
    method Run(b: Block) returns (r: string)
      modifies numberFormatter
      ensures numberFormatter.Snapshot() == old(numberFormatter.Snapshot())
      ensures r == Output(Seen(Settings(), old(numberFormatter.Snapshot()), b))
      decreases Size(b), 1
    {
      match b
      case Render(v) => r := EngineString(v);
      case Abbreviated(v, thresholds) => r := AbbreviatedString(v, thresholds);
      case InSuffix(suffix, body) => r := WithAbbreviationSuffix(suffix, body);
      case InPrecision(precision, body) => r := WithPrecision(precision, body);
      case InSign(sign, body) => r := WithSign(sign, body);
      case InZeroSign(zero, body) => r := WithZeroSign(zero, body);
    }

    /** `abbreviatedString(from:abbreviation:)`: the first row, in table
        order, whose magnitude the unrounded value reaches wins; the value is
        divided by it and rendered inside that row's suffix scope. With no row
        reached the value is rendered as it is. */
    method AbbreviatedString(value: real, thresholds: seq<Threshold>) returns (r: string)
      modifies numberFormatter
      ensures numberFormatter.Snapshot() == old(numberFormatter.Snapshot())
      ensures r == Output(Seen(Settings(), old(numberFormatter.Snapshot()), Abbreviated(value, thresholds)))
      decreases Size(Abbreviated(value, thresholds)), 0
    {
      var i := 0;
      while i < |thresholds|
        invariant 0 <= i <= |thresholds|
        invariant forall j :: 0 <= j < i ==> Abs(value) < thresholds[j].value
        invariant numberFormatter.Snapshot() == old(numberFormatter.Snapshot())
      {
        if Abs(value) >= thresholds[i].value {
          r := WithAbbreviationSuffix(thresholds[i].suffix, Render(value / thresholds[i].value));
          return;
        }
        i := i + 1;
      }
      r := EngineString(value);
    }

    /** The private `string(from:)`: one engine call under the current
        configuration, with the placeholder for an engine failure. */
    method EngineString(value: real) returns (r: string)
      ensures r == Output(EngineCall(numberFormatter.Snapshot(), value))
      ensures numberFormatter.render(numberFormatter.Snapshot(), value).None? ==> r == invalidValueString
    {
      var text := numberFormatter.StringFrom(value);
      r := text.GetOr(invalidValueString);
    }

    /** `with(abbreviationSuffix:)`: both suffixes get `suffix` in front for
        the duration of the block and are put back afterwards. */
    method WithAbbreviationSuffix(suffix: string, body: Block) returns (r: string)
      modifies numberFormatter
      ensures numberFormatter.Snapshot() == old(numberFormatter.Snapshot())
      ensures r == Output(Seen(Settings(), SuffixApplied(old(numberFormatter.Snapshot()), suffix), body))
      decreases Size(body) + 1, 0
    {
      var existingPositiveSuffix := numberFormatter.positiveSuffix;
      var existingNegativeSuffix := numberFormatter.negativeSuffix;
      numberFormatter.positiveSuffix := suffix + numberFormatter.positiveSuffix;
      numberFormatter.negativeSuffix := suffix + numberFormatter.negativeSuffix;
      r := Run(body);
      numberFormatter.positiveSuffix := existingPositiveSuffix;
      numberFormatter.negativeSuffix := existingNegativeSuffix;
    }

    /** `with(precision:)`: the fraction-digit bounds of the effective
        precision hold for the duration of the block and are put back
        afterwards. */
    method WithPrecision(precision: Option<Precision>, body: Block) returns (r: string)
      modifies numberFormatter
      ensures numberFormatter.Snapshot() == old(numberFormatter.Snapshot())
      ensures r == Output(Seen(Settings(), PrecisionApplied(old(numberFormatter.Snapshot()), Settings(), precision), body))
      decreases Size(body) + 1, 0
    {
      var existingMinimumFractionDigits := numberFormatter.minimumFractionDigits;
      var existingMaximumFractionDigits := numberFormatter.maximumFractionDigits;
      var p := precision.GetOr(defaultPrecision);
      numberFormatter.minimumFractionDigits := p.minimum.GetOr(0);
      numberFormatter.maximumFractionDigits :=
        if p.maximum.Some? then p.maximum.value else maximumAllowedFractionDigits;
      r := Run(body);
      numberFormatter.minimumFractionDigits := existingMinimumFractionDigits;
      numberFormatter.maximumFractionDigits := existingMaximumFractionDigits;
    }

    /** `with(sign:)`: both prefixes are rewritten by the prefix rule for the
        duration of the block and are put back afterwards. */
    method WithSign(sign: Sign, body: Block) returns (r: string)
      modifies numberFormatter
      ensures numberFormatter.Snapshot() == old(numberFormatter.Snapshot())
      ensures r == Output(Seen(Settings(), SignApplied(old(numberFormatter.Snapshot()), Settings(), sign), body))
      decreases Size(body) + 1, 0
    {
      var existingPositivePrefix := numberFormatter.positivePrefix;
      var existingNegativePrefix := numberFormatter.negativePrefix;

      var newPlusSign := StyleText(sign.plus, numberFormatter.plusSign);
      if Contains(numberFormatter.positivePrefix, numberFormatter.plusSign) {
        numberFormatter.positivePrefix :=
          ReplaceAll(numberFormatter.positivePrefix, numberFormatter.plusSign, newPlusSign);
      } else {
        numberFormatter.positivePrefix := newPlusSign + numberFormatter.positivePrefix;
      }

      var newMinusSign := StyleText(sign.minus, numberFormatter.minusSign);
      if Contains(numberFormatter.negativePrefix, numberFormatter.minusSign) {
        numberFormatter.negativePrefix :=
          ReplaceAll(numberFormatter.negativePrefix, numberFormatter.minusSign, newMinusSign);
      } else {
        numberFormatter.negativePrefix := newMinusSign + numberFormatter.negativePrefix;
      }

      r := Run(body);

      numberFormatter.positivePrefix := existingPositivePrefix;
      numberFormatter.negativePrefix := existingNegativePrefix;
    }

    /** `with(zeroSign:)`: only the positive prefix changes, gaining the zero
        style's text in front, and it is put back afterwards. */
    method WithZeroSign(zero: Style, body: Block) returns (r: string)
      modifies numberFormatter
      ensures numberFormatter.Snapshot() == old(numberFormatter.Snapshot())
      ensures r == Output(Seen(Settings(), ZeroSignApplied(old(numberFormatter.Snapshot()), zero), body))
      decreases Size(body) + 1, 0
    {
      var existingPositivePrefix := numberFormatter.positivePrefix;
      var newZeroSign := ZeroStyleText(zero);
      numberFormatter.positivePrefix := newZeroSign + numberFormatter.positivePrefix;
      r := Run(body);
      numberFormatter.positivePrefix := existingPositivePrefix;
    }
  }

  /** A fresh formatter reports no grouping while an engine built to group
      keeps grouping: the initial value never reaches the engine. Only an
      assignment does. */
  method GroupingNotPushedAtConstruction(render: (Config, real) -> Option<string>, parse: string -> Option<real>)
    returns (wrapperGroups: bool, engineGroups: bool, engineGroupsAfterAssignment: bool)
    ensures !wrapperGroups && engineGroups && !engineGroupsAfterAssignment
  {
    var engine := new NumberFormatter(Config("", "-", "", "", 0, 3, true), "+", "-", render, parse);
    var formatter := new XFormatter(engine, (v: real, places: nat) => v);
    wrapperGroups, engineGroups := formatter.usesGroupingSeparator, engine.usesGroupingSeparator;
    formatter.SetUsesGroupingSeparator(false);
    engineGroupsAfterAssignment := engine.usesGroupingSeparator;
  }
}
