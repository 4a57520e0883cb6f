/** The locale-bound number engine (Foundation's `NumberFormatter`) as far as
    the pipeline touches it: the mutable prefix, suffix, fraction-digit and
    grouping fields, the read-only sign glyphs, and the rendering and parsing
    it performs from locale data, which are not modelled and stand here as the
    functions `render` and `parse` fixed when the engine is built. */
module NumberEngine {
  import opened Policies

  /** A snapshot of every field of the engine that the pipeline can change. */
  datatype Config = Config(
    positivePrefix: string,
    negativePrefix: string,
    positiveSuffix: string,
    negativeSuffix: string,
    minimumFractionDigits: int,
    maximumFractionDigits: int,
    usesGroupingSeparator: bool)

  /** A locale sign glyph; no locale has an empty one. */
  type Glyph = s: string | |s| > 0 witness "+"

  class NumberFormatter {
    var positivePrefix: string
    var negativePrefix: string
    var positiveSuffix: string
    var negativeSuffix: string
    var minimumFractionDigits: int
    var maximumFractionDigits: int
    var usesGroupingSeparator: bool

    const plusSign: Glyph
    const minusSign: Glyph
    /** The locale's rendering of a value under a configuration; `None` when
        the engine cannot represent the value. */
    const render: (Config, real) -> Option<string>
    /** The locale's parsing of a string into a number. */
    const parse: string -> Option<real>

    function Snapshot(): Config
      reads this
    {
      Config(positivePrefix, negativePrefix, positiveSuffix, negativeSuffix,
             minimumFractionDigits, maximumFractionDigits, usesGroupingSeparator)
    }

    constructor (initial: Config, plusSign: Glyph, minusSign: Glyph,
                 render: (Config, real) -> Option<string>, parse: string -> Option<real>)
      ensures Snapshot() == initial
      ensures this.plusSign == plusSign && this.minusSign == minusSign
      ensures this.render == render && this.parse == parse
    {
      positivePrefix, negativePrefix := initial.positivePrefix, initial.negativePrefix;
      positiveSuffix, negativeSuffix := initial.positiveSuffix, initial.negativeSuffix;
      minimumFractionDigits := initial.minimumFractionDigits;
      maximumFractionDigits := initial.maximumFractionDigits;
      usesGroupingSeparator := initial.usesGroupingSeparator;
      this.plusSign, this.minusSign := plusSign, minusSign;
      this.render, this.parse := render, parse;
    }

    /** `string(from:)`: renders under the configuration the engine holds now. */
    method StringFrom(value: real) returns (r: Option<string>)
      ensures r == render(Snapshot(), value)
    {
      r := render(Snapshot(), value);
    }

    /** `number(from:)`. */
    method NumberFrom(s: string) returns (r: Option<real>)
      ensures r == parse(s)
    {
      r := parse(s);
    }
  }
}
