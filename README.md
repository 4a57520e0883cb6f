# XFormatter numeric write path, modelled in Dafny

XFormatter renders decimal values through a locale-bound `NumberFormatter`
under three policies: abbreviation (`1.43k`), sign (`▲$123.46`, `=0`) and
precision (fraction-digit bounds). The write path
`string(from: NSDecimalNumber, abbreviation:sign:precision:)` works in four steps:

1. It rounds the value.
2. It tests the rounded value for zero.
3. It wraps one engine call in nested scopes. Each scope saves a few engine
   fields, rewrites them, runs a closure, and puts the fields back.
4. It picks an abbreviation row and divides the value by it.

This project models that path, the class state it runs on, and the read path
`number(from:)` / `decimal(from:)`.

Files and modules:

- `policies.dfy` (`Policies`): the value types `Precision`, `Sign` with
  `Style`, and `Abbreviation` with `Threshold`, plus the presets the tests use.
- `text.dfy` (`Text`): Swift's `contains`, and Foundation's
  `replacingOccurrences` as left-to-right, non-overlapping replacement.
- `engine.dfy` (`NumberEngine`): the engine as a class.
  - Its mutable prefix, suffix, fraction-digit and grouping fields are
    captured by `Snapshot()`.
  - `plusSign` and `minusSign` are read-only glyphs.
  - Rendering and parsing, which come from locale data, are the
    function-valued constants `render` and `parse`.
- `decimal_spec.dfy` (`DecimalSpec`): pure functions.
  - How each scope rewrites the configuration.
  - The first-match row choice.
  - The blocks: the closures, as data.
  - `Seen`: the single engine call a block makes.
  - `Plan`: the engine call of one `string(from:…)`.
  - Lemmas about all of the above.
- `formatter.dfy` (`Formatter`): the `XFormatter` class.
  - Its fields and their initial values, and the `usesGroupingSeparator` write-through.
  - The read path.
  - The write path as methods that mutate and restore the engine in place.

  Each closure passed to a `with(...)` helper is a `Block` value. `Run` is
  the call `block()`. Every scope method is proved to restore every engine
  field, and to hand the engine exactly the call `Seen` predicts.
- `rounding_finding.dfy` (`RoundingFinding`): the rounding places the
  precision scope suggests were intended, `PlanCorrected` built on them, and
  how they differ from the written places that `Plan` uses (see Findings).

The repository holds two near-identical copies of the pipeline:
`Sources/XFormatter/XFormatter/XFormatter+Decimal.swift` and
`Sources/XFormatter/Formatter/XFormatter+Decimal.swift`. The second writes
its zero guard with the opposite polarity. One pipeline is modelled.
`DecimalSpec.Scopes` follows the first copy's guards and
`DecimalSpec.ScopesFlippedGuard` follows the second's.
`DecimalSpec.FlippedGuardAgrees` proves that they choose the same scopes
for every input.

Two details of the code that the model keeps:

- The value is rounded at `precision?.maximum ?? defaultPrecision.maximum`
  (line 107) before the zero test.
- The abbreviation row is chosen from the unrounded value (line 115), and
  the divided value goes straight to the engine without being rounded again
  (line 137).

## Model

| member | source | states |
|---|---|---|
| Formatter.XFormatter.constructor | Sources/XFormatter/XFormatter/XFormatter.swift:28-45 | A fresh formatter has grouping off, `defaultPrecision == .default`, `maximumAllowedFractionDigits == 16`, `usesSignForZero == false`, `invalidValueString == "--"`, and leaves every engine field as it was |
| Formatter.XFormatter.SetUsesGroupingSeparator | Sources/XFormatter/XFormatter/XFormatter.swift:28-32 | Assigning `usesGroupingSeparator` sets the wrapper field and the engine field to the new value; no other engine or formatter field changes |
| Formatter.GroupingNotPushedAtConstruction | Sources/XFormatter/XFormatter/XFormatter.swift:28-32 | The initial `false` never reaches an engine that groups: after construction the wrapper says no grouping while the engine still groups; after an assignment they agree |
| Formatter.XFormatter.NumberFrom | Sources/XFormatter/XFormatter/XFormatter+Decimal.swift:29-31 | `number(from:)` returns the engine's parse of the string |
| Formatter.XFormatter.DecimalFrom | Sources/XFormatter/XFormatter/XFormatter+Decimal.swift:33-38 | `decimal(from:)` is absent exactly when `number(from:)` is, and otherwise carries the parsed number |
| Formatter.XFormatter.StringFrom | Sources/XFormatter/XFormatter/XFormatter+Decimal.swift:100-129 | The value is rounded at `precision?.maximum ?? defaultPrecision.maximum` for the zero test; the engine receives exactly the configuration and value `Plan` gives for that rounding; the result is the engine's text or `invalidValueString`; every engine field afterwards equals its value before the call |
| Formatter.XFormatter.Run | Sources/XFormatter/XFormatter/XFormatter+Decimal.swift:113-127 | Running any block, however its scopes nest, restores every engine field and yields the output of the engine call `Seen` predicts for it |
| Formatter.XFormatter.AbbreviatedString | Sources/XFormatter/XFormatter/XFormatter+Decimal.swift:131-141 | The loop stops at the first row, in table order, that the unrounded magnitude reaches. The engine then renders value / row magnitude inside that row's suffix scope. With no row reached it renders the value unchanged. Engine fields are restored |
| Formatter.XFormatter.EngineString | Sources/XFormatter/XFormatter/XFormatter+Decimal.swift:143-145 | One engine call under the current configuration; an engine failure yields `invalidValueString` |
| Formatter.XFormatter.WithAbbreviationSuffix | Sources/XFormatter/XFormatter/XFormatter+Decimal.swift:151-160 | Inside the block both suffixes carry the abbreviation suffix in front of their old text; afterwards both are restored |
| Formatter.XFormatter.WithPrecision | Sources/XFormatter/XFormatter/XFormatter+Decimal.swift:162-172 | Inside the block min/max fraction digits are `(precision ?? defaultPrecision).minimum ?? 0` and `.maximum ?? maximumAllowedFractionDigits`; afterwards both are restored |
| Formatter.XFormatter.WithSign | Sources/XFormatter/XFormatter/XFormatter+Decimal.swift:174-215 | Inside the block both prefixes follow the prefix rule: replace every occurrence of the locale glyph, or prepend the sign text when there is none. Afterwards both prefixes are restored, whatever rewrite was applied |
| Formatter.XFormatter.WithZeroSign | Sources/XFormatter/XFormatter/XFormatter+Decimal.swift:217-233 | Inside the block only the positive prefix changes. It gains the custom zero text in front, or "" for any other style. Afterwards it is restored |
| DecimalSpec.FirstMatch | Sources/XFormatter/XFormatter/XFormatter+Decimal.swift:135 | The chosen row is in the table and reached by \|value\|, and no earlier row is reached. No row is chosen exactly when none is reached |
| DecimalSpec.FlippedGuardAgrees | Sources/XFormatter/Formatter/XFormatter+Decimal.swift:112-129 | The copy with `guard roundedValue != .zero` chooses the same scopes as the copy with `guard roundedValue == .zero` for every input |
| DecimalSpec.ZeroUnsignedIgnoresSign | Sources/XFormatter/XFormatter/XFormatter+Decimal.swift:119-123 | When the value rounds to zero and sign-for-zero is off, the engine gets the rounded zero with only the precision scope applied. The sign and the abbreviation make no difference |
| DecimalSpec.ZeroSignedMarksPositivePrefix | Sources/XFormatter/XFormatter/XFormatter+Decimal.swift:124-128 | When the value rounds to zero and sign-for-zero is on, the engine gets the rounded zero. Of the prefixes and suffixes only the positive prefix differs, gaining the zero style's text in front, inside the precision scope |
| DecimalSpec.NonZeroAbbreviates | Sources/XFormatter/XFormatter/XFormatter+Decimal.swift:112-117 | For a non-zero rounded value, the scopes nest as sign, then precision, then abbreviation. The row is chosen from the unrounded value. The engine gets value / magnitude with the row suffix in front of both suffixes, or the value unchanged when no row is reached |
| DecimalSpec.NoAbbreviationFormatsValue | Sources/XFormatter/XFormatter/XFormatter+Decimal.swift:135-140 | With the empty table a non-zero value reaches the engine unchanged and both suffixes are left alone |
| DecimalSpec.LargestThresholdWins | Sources/XFormatter/Formatter/XFormatter+Decimal.swift:136 | In a table of strictly decreasing magnitudes the first-match row is the largest magnitude the value reaches |
| DecimalSpec.ScopesCommute | Sources/XFormatter/XFormatter/XFormatter+Decimal.swift:151-233 | Five pairs of scopes build the same configuration in either nesting order: sign/precision, sign/suffix, precision/suffix, zero-sign/precision and zero-sign/suffix. Sign and zero-sign both write the positive prefix and are not claimed to commute |
| DecimalSpec.LocalizedSignKeepsGlyph | Sources/XFormatter/XFormatter/XFormatter+Decimal.swift:182-192 | `.localized` leaves a prefix that already holds the locale glyph unchanged, and prepends the glyph to one that does not |
| DecimalSpec.SignedPrefixReplacesGlyph | Sources/XFormatter/XFormatter/XFormatter+Decimal.swift:187-208 | For a one-character locale glyph and a sign text free of it, the rewritten prefix no longer contains the glyph. A prefix without the glyph just gets the text in front |
| DecimalSpec.CurrencyPrefixExamples | Tests/XFormatterTests/XFormatter/CurrencyFormatter+Tests.swift:103-125 | en_US currency prefixes: "$" with `.custom("▲")` gives "▲$", "-$" with `.custom("▼")` gives "▼$", "-$" with `.none` gives "$", "$" with `.localized` gives "+$", and "-$" with `.localized` stays "-$" |
| DecimalSpec.PrecisionScopeExamples | Tests/XFormatterTests/XFormatter/DecimalFormatter+Tests.swift:149-170 | Digit bounds with the instance defaults: no precision gives 0..2, `.maximum` gives 0..16, `.constant(4)` gives 4..4, `3...` gives 3..16, `...5` gives 0..5 |
| DecimalSpec.ZeroSignExamples | Tests/XFormatterTests/XFormatter/DecimalFormatter+Tests.swift:133-147 | Sign-for-zero with `.custom("=")` puts "=" before the positive prefix; `.arrow`'s zero style leaves the configuration unchanged |
| DecimalSpec.AbbreviationExamples | Tests/XFormatterTests/XFormatter/DecimalFormatter+Tests.swift:52-57 | On a b/m/k table, 1 and 432 match no row, 1000 becomes 1 with "k", 48729432 becomes 48.729432 with "m" |
| DecimalSpec.CurrencyAbbreviationExamples | Tests/XFormatterTests/XFormatter/CurrencyFormatter+Tests.swift:95-100 | On the same table, 326.09734 and -42.8111 match no row, 1432.99 and 100081 become 1.43299 and 100.081 with "k", and -4239.8111 becomes -4.2398111 with "k" |
| Text.ReplaceAllAbsent | Sources/XFormatter/XFormatter/XFormatter+Decimal.swift:187-192 | Replacing a text that does not occur leaves the prefix unchanged |
| Text.ReplaceAllSelf | Sources/XFormatter/XFormatter/XFormatter+Decimal.swift:188-189 | Replacing the glyph by itself leaves the prefix unchanged |
| Text.ReplaceAllRemovesChar | Sources/XFormatter/XFormatter/XFormatter+Decimal.swift:204-205 | After replacing a one-character glyph by a text free of it, the glyph no longer occurs |
| RoundingFinding.AsWrittenPlacesDisagreeWithEngine | Sources/XFormatter/XFormatter/XFormatter+Decimal.swift:106-111 | As written, `.maximum` precision on a default instance rounds at 2 places while the engine is told to show up to 16 |
| RoundingFinding.AsWrittenDropsSmallValues | Sources/XFormatter/XFormatter/XFormatter+Decimal.swift:106-111 | As written, under `.maximum` precision and `.arrow` signs, 0.004 reaches the engine as 0 with the prefixes untouched, while 0.006 reaches it as 0.006 under the arrow prefixes, both with up to 16 digits allowed |
| RoundingFinding.CorrectionOnlyAffectsOpenMaximum | Sources/XFormatter/XFormatter/XFormatter+Decimal.swift:107 | The corrected places differ from the written ones exactly when the call-site precision has no maximum and the default has one |
| RoundingFinding.CorrectionAgreesElsewhere | Sources/XFormatter/XFormatter/XFormatter+Decimal.swift:106-111 | Unless the call-site precision is given without a maximum, the corrected write path makes the same engine call as the written one |
| RoundingFinding.RoundingPlacesMatchEngine | Sources/XFormatter/XFormatter/XFormatter+Decimal.swift:162-167 | Corrected: when the corrected places are given, they equal the maximum fraction digits the precision scope installs; when they are absent, the zero test does not round and the scope installs `maximumAllowedFractionDigits` |
| RoundingFinding.CorrectedKeepsSmallValues | Sources/XFormatter/XFormatter/XFormatter+Decimal.swift:106-111 | Corrected: under `.maximum` precision and `.arrow` signs, 0.004 reaches the engine unchanged under the arrow prefixes |

## Left out

- Locale rendering, grouping, currency symbols and `number(from:)` parsing
  belong to Foundation's `NumberFormatter` and its locale data. They are the
  uninterpreted `render` and `parse` constants of the engine. No concrete
  output string is asserted beyond the prefix and suffix composition.
- `rounded(toPlaces:)` and `absValue` come from the PhantomKit library, whose
  source is not part of this model.
  - Rounding is the uninterpreted `rounded` constant, so its rounding mode
    is not fixed.
  - Magnitude is `Abs` on `real`.
- `NSDecimalNumber` holds at most 38 significant digits and has a NaN value
  (`notANumber`). In the model, values and the quotient `value / threshold.value`
  are exact reals. The rounding of a quotient that does not fit in 38 digits
  and NaN are not modelled. The `NSNumber`→`Decimal` conversion in
  `decimal(from:)` is treated as exact.
- Swift's `contains` and Foundation's `replacingOccurrences(of:with:)` match
  by `Character` and canonical equivalence. `Text.Contains` and
  `Text.ReplaceAll` match sequences of Unicode scalars exactly. A prefix and
  glyph that are canonically equivalent but differ in scalars, or a glyph
  that is part of a larger grapheme cluster, are therefore treated
  differently.
- The `Int`, `Float`, `Double` and `Decimal` overloads only convert to
  `NSDecimalNumber`. The `Float`/`Double` conversions are binary floating point.
- Abbreviation magnitudes are non-zero by type. A zero magnitude would raise
  a division exception in `NSDecimalNumber`, and that crash is not modelled.
- The engine's sign glyphs are non-empty by type. Swift gives
  `contains("")` and replacement of "" platform-dependent meanings, and no
  locale has an empty glyph.
- `Precision.default`, the `Sign` presets and the abbreviation tables are
  declared outside the files modelled here.
  - `DefaultPrecision` (at most 2 digits, no padding) is taken from the
    decimal tests.
  - The sign presets are taken from the tests, with zero style `.none`.
  - The example table uses k/m/b.
- Date and time formatting, the convenience constructors, the static shared
  instances and the duplicate class declarations only delegate to
  Foundation or set engine style and locale.
- Swift's `lazy` initialisation of `numberFormatter`: the engine is passed to
  the constructor already built.
- Concurrent use of one formatter from several threads.

## Findings

`XFormatter.StringFrom`, `Plan` and the pipeline lemmas follow the code as
written. `RoundingFinding.PlanCorrected` is the write path with the rounding
rule the precision scope suggests was intended.

| source | as written | input that shows it | evidently intended | confidence | as-written member | corrected member |
|---|---|---|---|---|---|---|
| Sources/XFormatter/XFormatter/XFormatter+Decimal.swift:107 | In both copies of the pipeline, the rounding places before the zero test are `precision?.maximum ?? defaultPrecision.maximum`. The fallback is field by field, while the precision scope falls back for the whole policy (`precision ?? defaultPrecision`) | precision `.maximum` on an instance with `defaultPrecision = .default`. The value 0.004 rounds to 0 at 2 places and takes the zero branch, so the engine shows zero and, with `.arrow`, no arrow. 0.006 rounds to 0.01, so the engine shows 0.006 in full under "▲" | Round at the same effective precision the precision scope installs, `(precision ?? defaultPrecision).maximum`, so no rounding happens when the policy has no maximum | medium, not executed | RoundingFinding.AsWrittenDropsSmallValues | RoundingFinding.RoundingPlacesMatchEngine |
