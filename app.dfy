/** src/App.js: the band titles, how each title is turned into the bounds of
    its slider (`title.match(/\d+/g).map(Number)`), and the selection keys the
    page starts with and offers. */
module App {
  import opened Wrappers
  import BaseOutputs

  // ---------------------------------------------------------------------------
  // Digit runs (the global match of /\d+/)

  /** `\d` matches the ASCII decimal digits only. */
  predicate IsDigit(c: char)
  {
    '0' <= c <= '9'
  }

  predicate AllDigits(s: string)
  {
    forall i :: 0 <= i < |s| ==> IsDigit(s[i])
  }

  predicate NoDigits(s: string)
  {
    forall i :: 0 <= i < |s| ==> !IsDigit(s[i])
  }

  /** Length of the digit run at the start of s; the run is maximal. */
  function RunLength(s: string): (n: nat)
    ensures n <= |s|
    ensures AllDigits(s[..n])
    ensures n < |s| ==> !IsDigit(s[n])
  {
    if s == [] || !IsDigit(s[0]) then 0 else 1 + RunLength(s[1..])
  }

  /** The strings a global match of /\d+/ returns, left to right: every
      maximal run of digits. An empty result stands for `null`. */
  function DigitRuns(s: string): (runs: seq<string>)
    ensures forall k :: 0 <= k < |runs| ==> |runs[k]| > 0 && AllDigits(runs[k])
    decreases |s|
  {
    if s == [] then []
    else if !IsDigit(s[0]) then DigitRuns(s[1..])
    else
      var n := RunLength(s);
      [s[..n]] + DigitRuns(s[n..])
  }

  /** The digits of s, in order. */
  function Digits(s: string): string
  {
    if s == [] then []
    else (if IsDigit(s[0]) then [s[0]] else []) + Digits(s[1..])
  }

  function Concat(runs: seq<string>): string
  {
    if runs == [] then [] else runs[0] + Concat(runs[1..])
  }

  lemma {:induction false} DigitsAppend(a: string, b: string)
    ensures Digits(a + b) == Digits(a) + Digits(b)
  {
    if a == [] {
      assert a + b == b;
    } else {
      var ab := a + b;
      assert ab[0] == a[0] && ab[1..] == a[1..] + b;
      var head := if IsDigit(a[0]) then [a[0]] else [];
      assert Digits(ab) == head + Digits(a[1..] + b);
      assert Digits(a) == head + Digits(a[1..]);
      DigitsAppend(a[1..], b);
    }
  }

  lemma {:induction false} DigitsOfRun(r: string)
    requires AllDigits(r)
    ensures Digits(r) == r
  {
    if r != [] {
      DigitsOfRun(r[1..]);
    }
  }

  lemma {:induction false} DigitsOfGap(g: string)
    requires NoDigits(g)
    ensures Digits(g) == []
  {
    if g != [] {
      DigitsOfGap(g[1..]);
    }
  }

  /** The runs hold every digit of the string, in order, and nothing else. */
  lemma {:induction false} RunsKeepDigits(s: string)
    ensures Concat(DigitRuns(s)) == Digits(s)
    decreases |s|
  {
    if s == [] {
    } else if !IsDigit(s[0]) {
      RunsKeepDigits(s[1..]);
    } else {
      var n := RunLength(s);
      assert s == s[..n] + s[n..];
      DigitsAppend(s[..n], s[n..]);
      DigitsOfRun(s[..n]);
      RunsKeepDigits(s[n..]);
      assert Concat(DigitRuns(s)) == s[..n] + Concat(DigitRuns(s[n..]));
    }
  }

  /** A stretch without digits contributes no run. */
  lemma {:induction false} GapHasNoRuns(g: string, rest: string)
    requires NoDigits(g)
    ensures DigitRuns(g + rest) == DigitRuns(rest)
  {
    if g != [] {
      assert (g + rest)[1..] == g[1..] + rest;
      GapHasNoRuns(g[1..], rest);
    } else {
      assert g + rest == rest;
    }
  }

  lemma {:induction false} RunLengthOfRun(r: string, rest: string)
    requires AllDigits(r)
    requires rest == [] || !IsDigit(rest[0])
    ensures RunLength(r + rest) == |r|
  {
    if r != [] {
      assert (r + rest)[1..] == r[1..] + rest;
      RunLengthOfRun(r[1..], rest);
    } else {
      assert r + rest == rest;
    }
  }

  /** A maximal digit run (non-empty, followed by the end or a non-digit) is
      the next string the match returns. */
  lemma RunThenRest(r: string, rest: string)
    requires |r| > 0 && AllDigits(r)
    requires rest == [] || !IsDigit(rest[0])
    ensures DigitRuns(r + rest) == [r] + DigitRuns(rest)
  {
    RunLengthOfRun(r, rest);
    assert (r + rest)[..|r|] == r;
    assert (r + rest)[|r|..] == rest;
  }

  /** Together with GapHasNoRuns, this fixes the result on every string:
      digit-free stretches are skipped and each maximal run is returned. */
  lemma GapRunRest(g: string, r: string, rest: string)
    requires NoDigits(g) && |r| > 0 && AllDigits(r)
    requires rest == [] || !IsDigit(rest[0])
    ensures DigitRuns(g + r + rest) == [r] + DigitRuns(rest)
  {
    assert g + r + rest == g + (r + rest);
    GapHasNoRuns(g, r + rest);
    RunThenRest(r, rest);
  }

  // ---------------------------------------------------------------------------
  // parseValuesFromTitle

  function Pow10(k: nat): nat
  {
    if k == 0 then 1 else 10 * Pow10(k - 1)
  }

  /** Number(run) for a string of digits. */
  function DecimalValue(r: string): nat
    requires AllDigits(r)
  {
    if r == [] then 0
    else 10 * DecimalValue(r[..|r| - 1]) + (r[|r| - 1] as int - '0' as int)
  }

  /** A run of k digits denotes a value below 10^k. */
  lemma {:induction false} DecimalValueBound(r: string)
    requires AllDigits(r)
    ensures DecimalValue(r) < Pow10(|r|)
    decreases |r|
  {
    if r != [] {
      DecimalValueBound(r[..|r| - 1]);
    }
  }

  /** Number ignores leading zeros: "0123" reads as 123. */
  lemma {:induction false} LeadingZeroIgnored(r: string)
    requires AllDigits(r)
    ensures AllDigits(['0'] + r) && DecimalValue(['0'] + r) == DecimalValue(r)
    decreases |r|
  {
    if r != [] {
      var z := ['0'] + r;
      assert z[..|z| - 1] == ['0'] + r[..|r| - 1];
      LeadingZeroIgnored(r[..|r| - 1]);
    }
  }

  /** `{ initialValue: numbers[0], maxValue: numbers[1] }`; maxValue is
      `undefined` (None) when the title has a single run. */
  datatype TitleValues = TitleValues(initialValue: nat, maxValue: Option<nat>)

  /** `match` returns null when there is no run, and `.map` on null throws. */
  datatype ParseError = NoDigitRun

  function ParseValuesFromTitle(title: string): (r: Result<TitleValues, ParseError>)
    ensures r.Failure? <==> DigitRuns(title) == []
    ensures r.Success? ==>
      && r.value.initialValue == DecimalValue(DigitRuns(title)[0])
      && (r.value.maxValue.Some? <==> |DigitRuns(title)| >= 2)
      && (r.value.maxValue.Some? ==> r.value.maxValue.value == DecimalValue(DigitRuns(title)[1]))
  {
    var runs := DigitRuns(title);
    if runs == [] then Failure(NoDigitRun)
    else
      var numbers := seq(|runs|, i requires 0 <= i < |runs| => DecimalValue(runs[i]));
      Success(TitleValues(numbers[0], if |numbers| > 1 then Some(numbers[1]) else None))
  }

  lemma {:induction false} NoDigitsIffEmptyDigits(s: string)
    ensures Digits(s) == [] <==> NoDigits(s)
  {
    if s != [] {
      NoDigitsIffEmptyDigits(s[1..]);
      assert NoDigits(s) <==> !IsDigit(s[0]) && NoDigits(s[1..]);
    }
  }

  /** Parsing fails exactly on a title without any decimal digit. */
  lemma {:induction false} ParseFailsIffNoDigit(title: string)
    ensures ParseValuesFromTitle(title).Failure? <==> NoDigits(title)
  {
    RunsKeepDigits(title);
    NoDigitsIffEmptyDigits(title);
  }

  /** A title of the form `$<low>-$<high>` yields both numbers. */
  lemma ParseDollarRange(low: string, high: string)
    requires |low| > 0 && AllDigits(low) && |high| > 0 && AllDigits(high)
    ensures ParseValuesFromTitle("$" + low + "-$" + high) ==
      Success(TitleValues(DecimalValue(low), Some(DecimalValue(high))))
  {
    var title := "$" + low + "-$" + high;
    assert title == "$" + low + ("-$" + high);
    GapRunRest("$", low, "-$" + high);
    assert "-$" + high == "-$" + high + [];
    GapRunRest("-$", high, []);
    assert DigitRuns(title) == [low, high];
  }

  // ---------------------------------------------------------------------------
  // The six bands

  const SliderTitles: seq<string> := [
    "$0-$1000",
    "$1000-$5000",
    "$5000-$10000",
    "$10000-$20000",
    "$20000-$25000",
    "$25000-$50000"
  ]

  /** The boundaries between consecutive bands, as the titles spell them. */
  const BandEdges: seq<nat> := [0, 1000, 5000, 10000, 20000, 25000, 50000]

  /** The edges as the titles spell them. */
  const EdgeNumerals: seq<string> := ["0", "1000", "5000", "10000", "20000", "25000", "50000"]

  /** Number() of each spelled edge is the edge. */
  lemma EdgeValues(i: nat)
    requires i < |EdgeNumerals|
    ensures |EdgeNumerals[i]| > 0 && AllDigits(EdgeNumerals[i])
    ensures DecimalValue(EdgeNumerals[i]) == BandEdges[i]
  {
    if i == 0 {
    } else if i == 1 {
      assert "1000"[..3] == "100" && "100"[..2] == "10" && "10"[..1] == "1";
    } else if i == 2 {
      assert "5000"[..3] == "500" && "500"[..2] == "50" && "50"[..1] == "5";
    } else if i == 3 {
      assert "10000"[..4] == "1000" && "1000"[..3] == "100" && "100"[..2] == "10" && "10"[..1] == "1";
    } else if i == 4 {
      assert "20000"[..4] == "2000" && "2000"[..3] == "200" && "200"[..2] == "20" && "20"[..1] == "2";
    } else if i == 5 {
      assert "25000"[..4] == "2500" && "2500"[..3] == "250" && "250"[..2] == "25" && "25"[..1] == "2";
    } else {
      assert "50000"[..4] == "5000" && "5000"[..3] == "500" && "500"[..2] == "50" && "50"[..1] == "5";
    }
  }

  /** Title i is `$<edge i>-$<edge i + 1>`. */
  lemma SliderTitleShape(i: nat)
    requires i < |SliderTitles|
    ensures SliderTitles[i] == "$" + EdgeNumerals[i] + "-$" + EdgeNumerals[i + 1]
  {
  }

  /** Title i parses to the bounds BandEdges[i] and BandEdges[i + 1]. */
  lemma SliderTitleValues(i: nat)
    requires i < |SliderTitles|
    ensures ParseValuesFromTitle(SliderTitles[i]) ==
      Success(TitleValues(BandEdges[i], Some(BandEdges[i + 1])))
  {
    SliderTitleShape(i);
    EdgeValues(i);
    EdgeValues(i + 1);
    ParseDollarRange(EdgeNumerals[i], EdgeNumerals[i + 1]);
  }

  /** Every band has 0 <= initialValue < maxValue, so the slider's clamp keeps
      its input inside the band, and each band starts where the previous one
      ends. */
  lemma SliderBands(i: nat)
    requires i < |SliderTitles|
    ensures var r := ParseValuesFromTitle(SliderTitles[i]);
      r.Success? && r.value.maxValue.Some? && r.value.initialValue < r.value.maxValue.value
    ensures i + 1 < |SliderTitles| ==>
      ParseValuesFromTitle(SliderTitles[i]).value.maxValue ==
      Some(ParseValuesFromTitle(SliderTitles[i + 1]).value.initialValue)
  {
    SliderTitleValues(i);
    if i + 1 < |SliderTitles| {
      SliderTitleValues(i + 1);
    }
  }

  /** An example: "$1000-$5000" gives 1000 and 5000. */
  lemma ParseExample()
    ensures SliderTitles[1] == "$1000-$5000"
    ensures ParseValuesFromTitle(SliderTitles[1]) == Success(TitleValues(1000, Some(5000)))
  {
    SliderTitleValues(1);
  }

  // ---------------------------------------------------------------------------
  // Selection keys

  const DefaultDonor: string := "Major Donor"
  const DefaultAppeal: string := "Holiday Appeal"
  /** The `value` attributes of the two `<select>` controls. */
  const DonorOptions: seq<string> := ["Major Donor", "OTG", "TBZ"]
  const AppealOptions: seq<string> := ["Holiday Appeal", "Papers", "Monthly"]

  /** Whatever is selected, the lookup neither throws nor falls back. */
  lemma SelectionsAreTableKeys()
    ensures DefaultAppeal in BaseOutputs.Table && DefaultDonor in BaseOutputs.Table[DefaultAppeal]
    ensures forall appeal, donor :: appeal in AppealOptions && donor in DonorOptions ==>
      appeal in BaseOutputs.Table && donor in BaseOutputs.Table[appeal]
  {
    BaseOutputs.TableKeys();
  }
}
