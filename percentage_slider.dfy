/** The state of one band panel in src/PercentageSlider.js and the handlers
    that change it. Each React effect is an explicit recompute at the end of
    the handler that changes one of its dependencies. */
module Slider {
  import opened AskAmount
  import BaseOutputs

  class PercentageSlider {
    // props
    const initialValue: real
    const maxValue: real
    var calculationType: string
    var appealType: string

    // component state
    var inputValue: real
    var percentages: seq<real>
    var baseOutputs: seq<real>
    var roundToFive: bool
    var roundToTen: bool
    var formulas: seq<Formula>

    /** Three slots, at most one rounding box checked, the input within its
        band whenever the band is well formed, a known appeal type, and the
        formulas in step with the rest of the state. */
    ghost predicate Valid()
      reads this
    {
      && |percentages| == 3
      && |baseOutputs| == 3
      && Exclusive(Boxes())
      && (initialValue <= maxValue ==> initialValue <= inputValue <= maxValue)
      && appealType in BaseOutputs.Table
      && formulas == Formulas(inputValue, percentages, baseOutputs, roundToFive, roundToTen)
    }

    function Boxes(): RoundingBoxes
      reads this
    {
      RoundingBoxes(roundToFive, roundToTen)
    }

    /** Mounting the component: the input starts at the band's lower bound,
        every percentage at 0, the coefficients from the table, no rounding. */
    constructor (calculationType: string, appealType: string, initialValue: real, maxValue: real)
      requires appealType in BaseOutputs.Table
      ensures Valid()
      ensures this.calculationType == calculationType && this.appealType == appealType
      ensures this.initialValue == initialValue && this.maxValue == maxValue
      ensures inputValue == initialValue
      ensures percentages == [0.0, 0.0, 0.0]
      ensures baseOutputs == BaseOutputs.GetBaseOutputs(calculationType, appealType)
      ensures !roundToFive && !roundToTen
    {
      this.calculationType := calculationType;
      this.appealType := appealType;
      this.initialValue := initialValue;
      this.maxValue := maxValue;
      inputValue := initialValue;
      percentages := [0.0, 0.0, 0.0];
      baseOutputs := BaseOutputs.GetBaseOutputs(calculationType, appealType);
      roundToFive, roundToTen := false, false;
      formulas := Formulas(initialValue, [0.0, 0.0, 0.0],
                           BaseOutputs.GetBaseOutputs(calculationType, appealType), false, false);
    }

    /** The effect on [inputValue, percentages, baseOutputs, roundToFive, roundToTen]. */
    method UpdateFormulas()
      requires |percentages| == 3 && |baseOutputs| == 3
      modifies this`formulas
      ensures formulas == Formulas(inputValue, percentages, baseOutputs, roundToFive, roundToTen)
    {
      formulas := Formulas(inputValue, percentages, baseOutputs, roundToFive, roundToTen);
    }

    /** calculateOutput: the amount shown for one slot, which is also what the
        formula shown beside it denotes. */
    method CalculateOutput(index: nat) returns (output: real)
      requires Valid() && index < 3
      ensures output == Output(inputValue, baseOutputs[index], percentages[index], roundToFive, roundToTen)
      ensures Eval(formulas[index]) == output
      ensures !roundToFive && !roundToTen ==>
        output == inputValue * baseOutputs[index] * (1.0 + percentages[index] / 100.0)
    {
      output := inputValue * baseOutputs[index] * (1.0 + percentages[index] / 100.0);
      if roundToFive {
        output := (Ceil(output / 5.0) * 5) as real;
      } else if roundToTen {
        output := (Ceil(output / 10.0) * 10) as real;
      }
    }

    /** handleInputChange: the new value clamped into [initialValue, maxValue]. */
    method HandleInputChange(value: real)
      requires Valid()
      modifies this`inputValue, this`formulas
      ensures Valid()
      ensures inputValue == Clamp(value, initialValue, maxValue)
    {
      inputValue := Min(Max(value, initialValue), maxValue);
      UpdateFormulas();
    }

    /** handlePercentageChange: replace one percentage, keep the other two. */
    method HandlePercentageChange(index: nat, value: real)
      requires Valid() && index < 3
      modifies this`percentages, this`formulas
      ensures Valid()
      ensures percentages == old(percentages)[index := value]
    {
      var newPercentages := percentages;
      newPercentages := newPercentages[index := value];
      percentages := newPercentages;
      UpdateFormulas();
    }

    /** handleBaseOutputChange: replace one coefficient, keep the other two. */
    method HandleBaseOutputChange(index: nat, value: real)
      requires Valid() && index < 3
      modifies this`baseOutputs, this`formulas
      ensures Valid()
      ensures baseOutputs == old(baseOutputs)[index := value]
    {
      var newBaseOutputs := baseOutputs;
      newBaseOutputs := newBaseOutputs[index := value];
      baseOutputs := newBaseOutputs;
      UpdateFormulas();
    }

    /** The $5 checkbox. */
    method ToggleRoundToFive()
      requires Valid()
      modifies this`roundToFive, this`roundToTen, this`formulas
      ensures Valid()
      ensures Boxes() == ClickRoundToFive(old(Boxes()))
    {
      var wasChecked := roundToFive;
      roundToFive := !wasChecked;
      if !wasChecked {
        roundToTen := false;
      }
      UpdateFormulas();
    }

    /** The $10 checkbox. */
    method ToggleRoundToTen()
      requires Valid()
      modifies this`roundToFive, this`roundToTen, this`formulas
      ensures Valid()
      ensures Boxes() == ClickRoundToTen(old(Boxes()))
    {
      var wasChecked := roundToTen;
      roundToTen := !wasChecked;
      if !wasChecked {
        roundToFive := false;
      }
      UpdateFormulas();
    }

    /** New props from the selection controls. The effect on
        [calculationType, appealType] runs only when one of them changed, and
        then overwrites any coefficient edited by hand with the table triple. */
    method SelectionChanged(newCalculationType: string, newAppealType: string)
      requires Valid() && newAppealType in BaseOutputs.Table
      modifies this`calculationType, this`appealType, this`baseOutputs, this`formulas
      ensures Valid()
      ensures calculationType == newCalculationType && appealType == newAppealType
      ensures old(calculationType) != newCalculationType || old(appealType) != newAppealType ==>
        baseOutputs == BaseOutputs.GetBaseOutputs(newCalculationType, newAppealType)
      ensures old(calculationType) == newCalculationType && old(appealType) == newAppealType ==>
        baseOutputs == old(baseOutputs)
    {
      var changed := calculationType != newCalculationType || appealType != newAppealType;
      calculationType, appealType := newCalculationType, newAppealType;
      if changed {
        baseOutputs := BaseOutputs.GetBaseOutputs(calculationType, appealType);
        UpdateFormulas();
      }
    }
  }

  /** A coefficient typed in by hand lasts only until the donor or appeal type
      changes: then the slot shows the table's value again. */
  method ManualCoefficientIsProvisional(slider: PercentageSlider, index: nat, value: real,
                                        newCalculationType: string)
    returns (edited: seq<real>)
    requires slider.Valid() && index < 3
    requires newCalculationType != slider.calculationType
    modifies slider
    ensures edited == old(slider.baseOutputs)[index := value] && edited[index] == value
    ensures slider.Valid()
    ensures slider.baseOutputs ==
      BaseOutputs.GetBaseOutputs(newCalculationType, old(slider.appealType))
  {
    slider.HandleBaseOutputChange(index, value);
    edited := slider.baseOutputs;
    slider.SelectionChanged(newCalculationType, slider.appealType);
  }
}
