/** The pure arithmetic of the ask-amount calculator in src/PercentageSlider.js:
    the output of one slot, the formula text that describes it, the clamp of the
    input value and the two rounding checkboxes. Numbers are exact reals. */
module AskAmount {

  datatype Step = Five | Ten

  function StepValue(step: Step): int
  {
    match step
    case Five => 5
    case Ten => 10
  }

  function StepText(step: Step): string
  {
    match step
    case Five => "5"
    case Ten => "10"
  }

  /** Math.ceil: the least integer not below x. */
  function Ceil(x: real): (c: int)
    ensures x <= c as real < x + 1.0
  {
    -((-x).Floor)
  }

  /** x is a whole multiple of step: x / step is an integer. */
  predicate IsMultipleOf(x: real, step: int)
    requires step > 0
  {
    var q := x / step as real;
    q == q.Floor as real
  }

  lemma WholeMultiple(c: int, step: int)
    requires step > 0
    ensures IsMultipleOf((c * step) as real, step)
  {
    var q := (c * step) as real / step as real;
    assert (c * step) as real == c as real * step as real;
    assert q == c as real;
    assert q.Floor == c;
  }

  /** Math.ceil(x / step) * step: x rounded up to the next multiple of step. */
  function RoundUp(x: real, step: Step): (r: real)
    ensures IsMultipleOf(r, StepValue(step))
    ensures x <= r < x + StepValue(step) as real
  {
    match step
    case Five =>
      var c := Ceil(x / 5.0);
      WholeMultiple(c, 5);
      (c * 5) as real
    case Ten =>
      var c := Ceil(x / 10.0);
      WholeMultiple(c, 10);
      (c * 10) as real
  }

  /** The unrounded ask amount `input * coeff * (1 + pct / 100)`. */
  function Raw(input: real, coeff: real, pct: real): real
  {
    input * coeff * (1.0 + pct / 100.0)
  }

  /** calculateOutput for one slot: the raw amount, rounded up to $5 when the
      first box is checked, otherwise to $10 when the second one is. */
  function Output(input: real, coeff: real, pct: real, roundToFive: bool, roundToTen: bool): (r: real)
    ensures !roundToFive && !roundToTen ==> r == Raw(input, coeff, pct)
    ensures roundToFive ==>
      IsMultipleOf(r, 5) && Raw(input, coeff, pct) <= r < Raw(input, coeff, pct) + 5.0
    ensures !roundToFive && roundToTen ==>
      IsMultipleOf(r, 10) && Raw(input, coeff, pct) <= r < Raw(input, coeff, pct) + 10.0
  {
    var output := Raw(input, coeff, pct);
    if roundToFive then RoundUp(output, Five)
    else if roundToTen then RoundUp(output, Ten)
    else output
  }

  // ---------------------------------------------------------------------------
  // Formula text

  /** The structure of a formula string: the product
      `{input} * {coeff} * (1 + {percent} / 100)`, possibly wrapped in
      `ceil(... / {step}) * {step}`. */
  datatype Formula =
    | Product(input: real, coeff: real, percent: real)
    | CeilTimes(inner: Formula, step: Step)

  /** What the formula text denotes when read as arithmetic. */
  function Eval(f: Formula): real
  {
    match f
    case Product(input, coeff, percent) => input * coeff * (1.0 + percent / 100.0)
    case CeilTimes(inner, step) =>
      (Ceil(Eval(inner) / StepValue(step) as real) * StepValue(step)) as real
  }

  /** The text itself; `numeral` stands for JavaScript's number-to-string
      conversion inside a template literal. */
  function Render(f: Formula, numeral: real -> string): (text: string)
    ensures f.Product? ==> |text| >= 7 && text[|text| - 7..] == " / 100)"
    ensures f.CeilTimes? ==>
      var tail := ") * " + StepText(f.step);
      |text| >= 5 + |tail| && text[..5] == "ceil(" && text[|text| - |tail|..] == tail
  {
    match f
    case Product(input, coeff, percent) =>
      numeral(input) + " * " + numeral(coeff) + " * (1 + " + numeral(percent) + " / 100)"
    case CeilTimes(inner, step) =>
      "ceil(" + Render(inner, numeral) + " / " + StepText(step) + ") * " + StepText(step)
  }

  /** The per-slot formula built by updateFormulas. Its rounding wrapper takes
      the same branch as Output, so the text always denotes the displayed amount. */
  function FormulaFor(input: real, coeff: real, pct: real, roundToFive: bool, roundToTen: bool): (f: Formula)
    ensures Eval(f) == Output(input, coeff, pct, roundToFive, roundToTen)
    ensures f.CeilTimes? <==> roundToFive || roundToTen
    ensures f.CeilTimes? ==>
      f.inner == Product(input, coeff, pct) && f.step == (if roundToFive then Five else Ten)
    ensures f.Product? ==> f == Product(input, coeff, pct)
  {
    var formula := Product(input, coeff, pct);
    assert Eval(formula) == Raw(input, coeff, pct);
    assert Eval(CeilTimes(formula, Five)) == RoundUp(Raw(input, coeff, pct), Five);
    assert Eval(CeilTimes(formula, Ten)) == RoundUp(Raw(input, coeff, pct), Ten);
    if roundToFive then CeilTimes(formula, Five)
    else if roundToTen then CeilTimes(formula, Ten)
    else formula
  }

  /** The last character of a rendered formula tells which rounding branch was
      taken, whatever the numerals look like: ')' for none, '5' for $5, '0' for $10. */
  lemma FormulaTextEnding(input: real, coeff: real, pct: real, roundToFive: bool, roundToTen: bool,
                          numeral: real -> string)
    ensures var text := Render(FormulaFor(input, coeff, pct, roundToFive, roundToTen), numeral);
      text[|text| - 1] == (if roundToFive then '5' else if roundToTen then '0' else ')')
  {
  }

  /** updateFormulas: one formula per percentage slot. */
  function Formulas(input: real, percentages: seq<real>, baseOutputs: seq<real>,
                    roundToFive: bool, roundToTen: bool): (fs: seq<Formula>)
    requires |baseOutputs| >= |percentages|
    ensures |fs| == |percentages|
    ensures forall i :: 0 <= i < |fs| ==>
      Eval(fs[i]) == Output(input, baseOutputs[i], percentages[i], roundToFive, roundToTen)
  {
    seq(|percentages|, i requires 0 <= i < |percentages| =>
      FormulaFor(input, baseOutputs[i], percentages[i], roundToFive, roundToTen))
  }

  // ---------------------------------------------------------------------------
  // Input clamp

  function Min(a: real, b: real): real { if a <= b then a else b }
  function Max(a: real, b: real): real { if a >= b then a else b }

  /** handleInputChange: Math.min(Math.max(value, initialValue), maxValue). */
  function Clamp(value: real, initialValue: real, maxValue: real): (r: real)
    ensures initialValue <= maxValue ==> initialValue <= r <= maxValue
    ensures initialValue <= value <= maxValue ==> r == value
    ensures value < initialValue <= maxValue ==> r == initialValue
    ensures initialValue <= maxValue < value ==> r == maxValue
    ensures r == value || r == initialValue || r == maxValue
    ensures maxValue < initialValue ==> r == maxValue
  {
    Min(Max(value, initialValue), maxValue)
  }

  lemma ClampIdempotent(value: real, initialValue: real, maxValue: real)
    ensures var once := Clamp(value, initialValue, maxValue);
      Clamp(once, initialValue, maxValue) == once
  {
  }

  // ---------------------------------------------------------------------------
  // Rounding checkboxes

  datatype RoundingBoxes = RoundingBoxes(roundToFive: bool, roundToTen: bool)

  /** At most one box is checked. */
  predicate Exclusive(b: RoundingBoxes)
  {
    !(b.roundToFive && b.roundToTen)
  }

  /** onChange of the $5 box: flip it, and when it is being checked uncheck the
      $10 box. */
  function ClickRoundToFive(b: RoundingBoxes): (r: RoundingBoxes)
    ensures r.roundToFive == !b.roundToFive
    ensures Exclusive(r)
    ensures b.roundToFive ==> r.roundToTen == b.roundToTen
  {
    RoundingBoxes(!b.roundToFive, if !b.roundToFive then false else b.roundToTen)
  }

  /** onChange of the $10 box, symmetric to ClickRoundToFive. */
  function ClickRoundToTen(b: RoundingBoxes): (r: RoundingBoxes)
    ensures r.roundToTen == !b.roundToTen
    ensures Exclusive(r)
    ensures b.roundToTen ==> r.roundToFive == b.roundToFive
  {
    RoundingBoxes(if !b.roundToTen then false else b.roundToFive, !b.roundToTen)
  }

  /** Clicking the same box twice gives back the prior state exactly when the
      other box was not checked (otherwise the first click cleared it). */
  lemma ClickTwice(b: RoundingBoxes)
    ensures ClickRoundToFive(ClickRoundToFive(b)) == b <==> !b.roundToTen
    ensures ClickRoundToTen(ClickRoundToTen(b)) == b <==> !b.roundToFive
  {
  }

  /** Checking $5 and then $10 leaves only $10 checked. */
  lemma FiveThenTen(b: RoundingBoxes)
    requires !b.roundToFive
    ensures ClickRoundToTen(ClickRoundToFive(b)) == RoundingBoxes(false, true)
  {
  }

  /** Under exclusivity the precedence of $5 over $10 in Output never matters:
      the branch taken is the one box that is checked. */
  lemma ExclusiveOutput(input: real, coeff: real, pct: real, b: RoundingBoxes)
    requires Exclusive(b)
    ensures Output(input, coeff, pct, b.roundToFive, b.roundToTen) ==
      (if b.roundToTen then RoundUp(Raw(input, coeff, pct), Ten)
       else if b.roundToFive then RoundUp(Raw(input, coeff, pct), Five)
       else Raw(input, coeff, pct))
  {
  }

  /** Examples: $1000 at coefficient 1 gives 1000, with 10% it gives
      1100, and a raw 1103 rounds up to 1105 or 1110. */
  lemma OutputExamples()
    ensures Output(1000.0, 1.0, 0.0, false, false) == 1000.0
    ensures Output(1000.0, 1.0, 10.0, false, false) == 1100.0
    ensures Output(1103.0, 1.0, 0.0, true, false) == 1105.0
    ensures Output(1103.0, 1.0, 0.0, false, true) == 1110.0
  {
  }
}
