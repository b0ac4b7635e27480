# Donation ask-amount calculator: a Dafny model

This project models the calculation core of a small single-page tool. Nonprofit
staff use it to work out suggested donation "ask amounts". The user picks a
donor type ("Major Donor", "OTG", "TBZ") and an appeal type ("Holiday Appeal",
"Papers", "Monthly"). Six band panels are shown, one per dollar range
("$0-$1000" … "$25000-$50000"). Each panel holds:

- an input value, kept inside its band;
- three output slots, each with its own percentage and its own coefficient;
- two rounding checkboxes ($5 and $10).

Each slot shows `input * coefficient * (1 + percentage / 100)`, rounded up to
a multiple of $5 or $10 when a box is checked, next to a formula text that
spells out that computation.

Files and modules:

- `wrappers.dfy` (`Wrappers`): `Option` and `Result`. They stand for the
  source's `undefined` and its thrown errors.
- `base_outputs.dfy` (`BaseOutputs`): the coefficient table and
  `getBaseOutputs`. Keys are the source's strings. A donor type that is not a
  key falls back to `[1, 1, 1]`. An appeal type that is not a key is a
  precondition, because the source throws on it.
- `ask_amount.dfy` (`AskAmount`): the pure arithmetic of the panel:
  - `Ceil` and `RoundUp`;
  - the slot output `Output`;
  - the formula as a datatype (`Formula`), what it denotes (`Eval`) and its
    text (`Render`);
  - the input clamp;
  - the two checkbox transitions.
- `percentage_slider.dfy` (`Slider`): the class `PercentageSlider`, with the
  panel's state fields and one method per handler. Each React effect is an
  explicit recompute at the end of the handler that changes one of its
  dependencies. `Valid()` holds these invariants:
  - three slots;
  - at most one rounding box checked;
  - the input inside a well-formed band;
  - a known appeal type;
  - the formulas in step with the state.
- `app.dfy` (`App`): the scan that `title.match(/\d+/g).map(Number)` performs,
  `parseValuesFromTitle`, the six band titles and the selection keys.

Numbers are exact `real`s, so the decimal coefficients (0.9, 1.45, …) are exact.

In these places the code's behaviour is easy to misread; the model follows the code:

- An appeal type that is not a table key throws in the code. It does not fall
  back to `[1, 1, 1]`.
- A title with a single digit run does not fail to parse. It gives an
  undefined `maxValue`. Only a title with no digit at all fails, because
  `match` returns `null` and `.map` then throws.
- Percentages are stored as given. The calculator does not clamp them to
  [0, 100]; only the range widget bounds them.
- The coefficient reset on a selection change runs only when the donor or the
  appeal type actually changed. This is how the effect's dependency list
  works. Re-selecting the same value keeps hand-edited coefficients.
- Clicking a rounding box twice restores the earlier state only when the other
  box was unchecked. The first click that checks a box clears the other one
  (`AskAmount.ClickTwice` states both directions).

## Model

| member | source | states |
|---|---|---|
| `BaseOutputs.GetBaseOutputs` | src/PercentageSlider.js:20-40 | requires a known appeal type (the code throws otherwise); always a triple of positive coefficients; an unknown donor type gives exactly `[1, 1, 1]`; "Major Donor" gives `[0.9, 1.0, 1.45]` |
| `BaseOutputs.TableKeys` | src/PercentageSlider.js:21-37 | the rows are exactly the three appeal types, and every row has exactly the three donor types |
| `BaseOutputs.TablePositive` | src/PercentageSlider.js:21-37 | every entry of every row is a triple of positive numbers |
| `BaseOutputs.TableEntries` | src/PercentageSlider.js:21-39 | the lookup gives the exact triple for each of the nine (donor, appeal) pairs |
| `BaseOutputs.MajorDonorIndependentOfAppeal` | src/PercentageSlider.js:23-33 | "Major Donor" gets the same triple under every appeal type |
| `BaseOutputs.FallbackExactlyForUnknownDonor` | src/PercentageSlider.js:39 | the row misses a donor type exactly when it is not one of the three keys, and the lookup then gives the neutral triple |
| `AskAmount.Ceil` | src/PercentageSlider.js:75 | Math.ceil: the result is the least integer not below x |
| `AskAmount.RoundUp` | src/PercentageSlider.js:74-78 | `ceil(x / step) * step` is a multiple of the step and lies in [x, x + step) |
| `AskAmount.Output` | src/PercentageSlider.js:70-81 | with no box checked, the output is the raw product; with $5 checked, it is a multiple of 5 in [raw, raw + 5); with only $10 checked, a multiple of 10 in [raw, raw + 10); $5 wins when both are set |
| `AskAmount.ExclusiveOutput` | src/PercentageSlider.js:74-78 | while at most one box is checked, the precedence of $5 over $10 never matters |
| `AskAmount.OutputExamples` | src/PercentageSlider.js:70-81 | $1000 at coefficient 1 gives 1000, or 1100 at 10%; a raw 1103 rounds to 1105 or to 1110 |
| `AskAmount.FormulaFor` | src/PercentageSlider.js:53-62 | the formula is wrapped in `ceil(... / 5) * 5` or `ceil(... / 10) * 10` exactly when Output rounds, with the same step; what it denotes equals Output |
| `AskAmount.Formulas` | src/PercentageSlider.js:51-68 | one formula per percentage slot, and each denotes that slot's output |
| `AskAmount.FormulaTextEnding` | src/PercentageSlider.js:54-61 | whatever the numerals are, the formula text ends in ')' when unrounded, '5' for $5 and '0' for $10 |
| `AskAmount.Render` | src/PercentageSlider.js:54-61 | the unrounded text ends in ` / 100)`; a rounded text starts with `ceil(` and ends in `) * 5` or `) * 10`, matching its step |
| `AskAmount.Clamp` | src/PercentageSlider.js:84-87 | in a well-formed band the value lands in [initialValue, maxValue]; an in-range value is unchanged, a value below the band gives initialValue and one above it gives maxValue; the result is the value or one of the bounds; an inverted band always gives maxValue |
| `AskAmount.ClampIdempotent` | src/PercentageSlider.js:84-87 | clamping twice equals clamping once |
| `AskAmount.ClickRoundToFive` | src/PercentageSlider.js:174-177 | the $5 box flips; afterwards at most one box is checked, whatever the state before; unchecking $5 leaves $10 alone |
| `AskAmount.ClickRoundToTen` | src/PercentageSlider.js:186-189 | the $10 box flips; afterwards at most one box is checked; unchecking $10 leaves $5 alone |
| `AskAmount.ClickTwice` | src/PercentageSlider.js:174-189 | clicking the same box twice restores the prior state if and only if the other box was unchecked |
| `AskAmount.FiveThenTen` | src/PercentageSlider.js:174-189 | checking $5 and then $10 leaves only $10 checked |
| `Slider.PercentageSlider.constructor` | src/PercentageSlider.js:10-16 | initial state: the input at the band's lower bound, percentages `[0, 0, 0]`, coefficients from the table, no rounding, formulas in step |
| `Slider.PercentageSlider.UpdateFormulas` | src/PercentageSlider.js:47-68 | the formulas become those of the current input, percentages, coefficients and boxes |
| `Slider.PercentageSlider.CalculateOutput` | src/PercentageSlider.js:70-81 | the slot's amount is Output of the current state, and it is what the formula shown beside it denotes |
| `Slider.PercentageSlider.HandleInputChange` | src/PercentageSlider.js:83-89 | the input becomes the clamped value; nothing else but the formulas changes |
| `Slider.PercentageSlider.HandlePercentageChange` | src/PercentageSlider.js:91-95 | exactly the given slot of the percentages is replaced; the length stays 3 and the other state is unchanged |
| `Slider.PercentageSlider.HandleBaseOutputChange` | src/PercentageSlider.js:97-101 | exactly the given slot of the coefficients is replaced; the length stays 3 and the other state is unchanged |
| `Slider.PercentageSlider.ToggleRoundToFive` | src/PercentageSlider.js:174-177 | the boxes move as ClickRoundToFive says, and the exclusivity invariant is kept |
| `Slider.PercentageSlider.ToggleRoundToTen` | src/PercentageSlider.js:186-189 | the boxes move as ClickRoundToTen says, and the exclusivity invariant is kept |
| `Slider.PercentageSlider.SelectionChanged` | src/PercentageSlider.js:43-45 | new props are stored; if the donor or appeal type changed, the coefficients become the table triple, overwriting manual edits; otherwise they are kept |
| `Slider.ManualCoefficientIsProvisional` | src/PercentageSlider.js:43-45 | after a hand edit the slot holds the typed value; once the donor type changes, the coefficients are the table triple again |
| `App.RunLength` | src/App.js:20 | length of the leading digit run; the run is all digits and maximal |
| `App.DigitRuns` | src/App.js:20 | every string the global `/\d+/` match returns is a non-empty run of ASCII digits |
| `App.RunsKeepDigits` | src/App.js:20 | joined together, the runs are exactly the digits of the title, in order |
| `App.GapHasNoRuns` | src/App.js:20 | a digit-free stretch contributes no run |
| `App.RunThenRest` | src/App.js:20 | a maximal digit run is the next string the match returns |
| `App.GapRunRest` | src/App.js:20 | after skipping a digit-free prefix, the next maximal run comes next, left to right |
| `App.DecimalValueBound` | src/App.js:20 | `Number` of a run of k digits is below 10^k |
| `App.LeadingZeroIgnored` | src/App.js:20 | `Number` ignores a leading zero: "0" followed by a run reads as the run |
| `App.ParseValuesFromTitle` | src/App.js:19-22 | fails exactly when the match finds no run; otherwise initialValue is Number of the first run, and maxValue is Number of the second run, present exactly when there are two or more runs |
| `App.ParseFailsIffNoDigit` | src/App.js:20 | parsing fails exactly on a title without any decimal digit |
| `App.ParseDollarRange` | src/App.js:19-22 | a title `$<low>-$<high>` yields both numbers |
| `App.ParseExample` | src/App.js:11-22 | "$1000-$5000" yields initialValue 1000 and maxValue 5000 |
| `App.EdgeValues` | src/App.js:10-15 | Number of each bound spelled in the titles is that bound |
| `App.SliderTitleShape` | src/App.js:10-15 | title i is `$<edge i>-$<edge i+1>` |
| `App.SliderTitleValues` | src/App.js:9-22 | title i parses to the edges i and i + 1 |
| `App.SliderBands` | src/App.js:9-22 | every band parses to 0 <= initialValue < maxValue, and each band's maxValue is the next band's initialValue |
| `App.SelectionsAreTableKeys` | src/App.js:6-46 | the default selections and every offered option are table keys, so the lookup neither throws nor falls back |

## Left out

- Rendering, CSS, the heading, the Minimize/Maximize `visible` toggle and the `<select>` wiring are presentation only.
- React scheduling is not modelled. Each effect is a recompute made by the handler that changes one of its dependencies. The mount-time formulas `["", "", ""]`, shown before the first effect runs, are not modelled; the constructor computes the formulas at once.
- The `App` component's own selection state (`useState` plus `onChange`) is not a separate object. Its effect on a panel is `Slider.PercentageSlider.SelectionChanged`. The six panels are not modelled together, because they share no state.
- JavaScript floating point and `toFixed(2)` display formatting are not modelled. Numbers are exact reals. With a rounding box checked, a rounded output can therefore differ from the program's by one full step. Example: Holiday Appeal / OTG at input 1500 gives the double `1500 * 1.1 = 1650.0000000000002`, so with $5 checked the program shows 1655.00, while `AskAmount.Output` gives 1650.
- `Number(event.target.value)` coercion is not modelled: no `NaN`, and no empty string read as 0. The handlers take numbers.
- JavaScript's number-to-string conversion inside the formula template is the parameter `numeral` of `AskAmount.Render`.
- The output that `updateFormulas` computes and then throws away (src/PercentageSlider.js:53, 57, 60) is not modelled, because it cannot be observed.
- Property lookup through `Object.prototype` is not modelled. For example, a donor type named "constructor" would find an inherited member rather than the fallback. The table's keys are its own keys only.
- `App.DecimalValue` reads digit runs into unbounded naturals. Runs beyond 2^53, which `Number` would round, are not modelled.
- Later changes of the `initialValue` and `maxValue` props are not modelled; they are `const` fields here. App passes bounds parsed from the constant `sliderTitles` to panels keyed by index (src/App.js:9-16, 50-60), so they never change. `handleInputChange` reads the current props on every call (src/PercentageSlider.js:84-87), so a prop change would move the clamp; only the initial `inputValue` (src/PercentageSlider.js:10) would ignore it.
