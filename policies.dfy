/** The value objects a caller passes to the numeric write path: an optional
    value, the precision policy, the sign policy and the abbreviation table. */
module Policies {

  /** The conventional Some/None datatype, standing for Swift optionals. */
  datatype Option<+T> = None | Some(value: T) {
    /** Swift's `??`: the wrapped value, or `default` when absent. */
    function GetOr(default: T): T {
      match this
      case Some(v) => v
      case None => default
    }
  }

  /** Bounds on the number of fraction digits shown; an absent maximum means
      "do not round and do not cap", an absent minimum "do not pad". */
  datatype Precision = Precision(minimum: Option<nat>, maximum: Option<nat>)

  /** `Precision.default`: at most two fraction digits, no padding. */
  const DefaultPrecision := Precision(Some(0), Some(2))

  /** `Precision.maximum` and `Precision.init()`: both bounds absent. */
  const MaximumPrecision := Precision(None, None)

  /** `Precision.constant(n)`: exactly `n` fraction digits. */
  function ConstantPrecision(n: nat): Precision {
    Precision(Some(n), Some(n))
  }

  /** How one sign is shown: not at all (`.none`), with the locale's glyph
      (`.localized`), or with a caller-chosen text (`.custom`). */
  datatype Style = Hidden | Localized | Custom(text: string)

  /** The sign policy: one style for positive, negative and zero values. */
  datatype Sign = Sign(plus: Style, minus: Style, zero: Style)

  const DefaultSign := Sign(Hidden, Localized, Hidden)
  const BothSign := Sign(Localized, Localized, Hidden)
  const NoSign := Sign(Hidden, Hidden, Hidden)
  const ArrowSign := Sign(Custom("▲"), Custom("▼"), Hidden)
  const SpacedArrowSign := Sign(Custom("▲ "), Custom("▼ "), Hidden)

  /** A threshold magnitude; it is a divisor, so it is never zero. */
  type Magnitude = r: real | r != 0.0 witness 1.0

  /** One row of an abbreviation table: values whose magnitude reaches
      `value` are divided by it and shown with `suffix`. */
  datatype Threshold = Threshold(value: Magnitude, suffix: string)

  /** An abbreviation table, consulted in the order given. */
  datatype Abbreviation = Abbreviation(thresholds: seq<Threshold>)

  /** `Abbreviation.none`: the empty table. */
  const NoAbbreviation := Abbreviation([])

  /** The tables the library ships are ordered by strictly decreasing magnitude. */
  ghost predicate Descending(thresholds: seq<Threshold>) {
    forall i, j :: 0 <= i < j < |thresholds| ==> thresholds[i].value > thresholds[j].value
  }
}
