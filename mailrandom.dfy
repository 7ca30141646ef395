/** The weighted option selector of mailrandom: building the list of weighted
    options (from CSV records or from the two comma-separated flag values) and
    drawing one label from it.

    Weights are real numbers instead of float64, `strconv.ParseFloat` is the
    abstract partial function `parse`, and the uniform draw `u` of
    `rand.Float64()` is a parameter. The program's fatal exits (`fatal`,
    `log.Fatal`, `panic`, an index out of range) are `Err` results. */
module MailRandom {
  import opened Wrappers
  import Strings

  /** One candidate outcome: its label, its own weight, and the running sum of
      the weights of all options up to and including this one. */
  datatype WeightedOption = WeightedOption(name: string, weight: real, cumulativeWeight: real)

  /** One line of the options file, reduced to its two columns. */
  datatype Record = Record(name: string, weightText: string)

  /** The ways in which building or drawing ends the program. */
  datatype Error =
    | ParseError(index: nat, text: string)       // a weight is not a number
    | NoOptions                                  // the options file has no records
    | LengthMismatch(labels: nat, weights: nat)  // "number of options should equal number of weights"
    | IndexOutOfRange(index: nat)                // the draw reads options[index] past the end
    | NoSelectableOption                         // the bounds-checked draw finds no option

  /** `strconv.ParseFloat(_, 64)`, left abstract. */
  type ParseFloat = string -> Option<real>

  // ---------------------------------------------------------------------------
  // Reference definitions

  /** Sum of the weights of `os`, added up left to right. */
  function TotalWeight(os: seq<WeightedOption>): real
  {
    if os == [] then 0.0 else TotalWeight(os[..|os| - 1]) + os[|os| - 1].weight
  }

  /** Every cumulative weight is the sum of the weights up to and including it. */
  predicate Accumulated(os: seq<WeightedOption>)
  {
    forall i :: 0 <= i < |os| ==> os[i].cumulativeWeight == TotalWeight(os[..i + 1])
  }

  predicate NonNegative(os: seq<WeightedOption>)
  {
    forall i :: 0 <= i < |os| ==> os[i].weight >= 0.0
  }

  predicate AllParse(parse: ParseFloat, texts: seq<string>)
  {
    forall j :: 0 <= j < |texts| ==> parse(texts[j]).Some?
  }

  /** `texts[i]` is the first weight text that does not parse. */
  predicate FirstParseFailure(parse: ParseFloat, texts: seq<string>, i: nat)
  {
    i < |texts| && parse(texts[i]).None? && forall j :: 0 <= j < i ==> parse(texts[j]).Some?
  }

  /** `os` holds, in order, one option per label, weighted by the parsed weight
      text at the same position, with running sums as cumulative weights. */
  predicate BuiltFrom(os: seq<WeightedOption>, labels: seq<string>, texts: seq<string>, parse: ParseFloat)
  {
    && |os| == |labels| == |texts|
    && Accumulated(os)
    && forall i :: 0 <= i < |os| ==> os[i].name == labels[i] && parse(texts[i]) == Some(os[i].weight)
  }

  /** The shape the unweighted branch of the command-line parser produces:
      weight 1 each, but cumulative weight equal to the 0-based index. */
  predicate IndexWeighted(os: seq<WeightedOption>, labels: seq<string>)
  {
    |os| == |labels| && forall i :: 0 <= i < |os| ==> os[i] == WeightedOption(labels[i], 1.0, i as real)
  }

  function Labels(records: seq<Record>): seq<string>
  {
    seq(|records|, i requires 0 <= i < |records| => records[i].name)
  }

  function WeightTexts(records: seq<Record>): seq<string>
  {
    seq(|records|, i requires 0 <= i < |records| => records[i].weightText)
  }

  /** Index of the first option whose cumulative weight strictly exceeds `x`,
      or `|os|` when there is none. */
  function FirstAbove(os: seq<WeightedOption>, x: real): (k: nat)
    ensures k <= |os|
    ensures forall j :: 0 <= j < k ==> os[j].cumulativeWeight <= x
    ensures k < |os| ==> x < os[k].cumulativeWeight
  {
    if os == [] then 0
    else if x < os[0].cumulativeWeight then 0
    else 1 + FirstAbove(os[1..], x)
  }

  /** The three properties in `FirstAbove`'s contract determine its result. */
  lemma FirstAboveUnique(os: seq<WeightedOption>, x: real, k: nat)
    requires k <= |os|
    requires forall j :: 0 <= j < k ==> os[j].cumulativeWeight <= x
    requires k < |os| ==> x < os[k].cumulativeWeight
    ensures FirstAbove(os, x) == k
  {
  }

  /** Total weight as `selectOption` reads it: the last cumulative weight. */
  function LastCumulative(os: seq<WeightedOption>): real
    requires |os| > 0
  {
    os[|os| - 1].cumulativeWeight
  }

  // ---------------------------------------------------------------------------
  // Properties of accumulated option lists

  lemma TotalWeightAppend(os: seq<WeightedOption>, o: WeightedOption)
    ensures TotalWeight(os + [o]) == TotalWeight(os) + o.weight
  {
  }

  /** Appending an option whose cumulative weight extends the running sum keeps
      the list accumulated. */
  lemma AccumulatedAppend(os: seq<WeightedOption>, o: WeightedOption)
    requires Accumulated(os)
    requires o.cumulativeWeight == TotalWeight(os) + o.weight
    ensures Accumulated(os + [o])
    ensures TotalWeight(os + [o]) == TotalWeight(os) + o.weight
  {
    var s := os + [o];
    TotalWeightAppend(os, o);
    forall i | 0 <= i < |s|
      ensures s[i].cumulativeWeight == TotalWeight(s[..i + 1])
    {
      if i < |os| {
        assert s[..i + 1] == os[..i + 1];
      } else {
        assert s[..i + 1] == s;
      }
    }
  }

  /** The last cumulative weight is the total weight. */
  lemma LastIsTotal(os: seq<WeightedOption>)
    requires Accumulated(os) && |os| > 0
    ensures LastCumulative(os) == TotalWeight(os)
  {
    assert os[..|os|] == os;
  }

  /** Consecutive cumulative weights differ by exactly the later option's
      weight: they are equal exactly when that weight is zero, and a negative
      weight makes them decrease. */
  lemma {:induction false} CumulativeStep(os: seq<WeightedOption>, i: nat)
    requires Accumulated(os) && 0 < i < |os|
    ensures os[i].cumulativeWeight == os[i - 1].cumulativeWeight + os[i].weight
    ensures os[i].cumulativeWeight == os[i - 1].cumulativeWeight <==> os[i].weight == 0.0
    ensures os[i].weight < 0.0 ==> os[i].cumulativeWeight < os[i - 1].cumulativeWeight
  {
    assert os[..i + 1][..i] == os[..i];
  }

  /** With non-negative weights the cumulative weights never decrease. */
  lemma {:induction false} CumulativeMonotone(os: seq<WeightedOption>, i: nat, j: nat)
    requires Accumulated(os) && NonNegative(os)
    requires i <= j < |os|
    ensures os[i].cumulativeWeight <= os[j].cumulativeWeight
    decreases j - i
  {
    if i < j {
      CumulativeMonotone(os, i, j - 1);
      CumulativeStep(os, j);
    }
  }

  /** Negative weights are accepted, and then monotonicity fails. */
  lemma NegativeWeightBreaksMonotonicity()
    ensures var os := [WeightedOption("a", 1.0, 1.0), WeightedOption("b", -1.0, 0.0)];
      Accumulated(os) && os[1].cumulativeWeight < os[0].cumulativeWeight
  {
    var a, b := WeightedOption("a", 1.0, 1.0), WeightedOption("b", -1.0, 0.0);
    AccumulatedAppend([], a);
    assert [] + [a] == [a];
    AccumulatedAppend([a], b);
    assert [a] + [b] == [a, b];
    CumulativeStep([a, b], 1);
  }

  // ---------------------------------------------------------------------------
  // Properties of the draw

  /** When the total weight is positive and `0 <= u < 1`, the scan stops at an
      option inside the list. */
  lemma DrawInBounds(os: seq<WeightedOption>, u: real)
    requires |os| > 0 && 0.0 <= u < 1.0 && LastCumulative(os) > 0.0
    ensures FirstAbove(os, LastCumulative(os) * u) < |os|
  {
  }

  /** Over non-negative weights, option `k` is drawn exactly when the scaled
      draw falls in `[cumulative(k-1), cumulative(k))`, an interval as long as
      its weight. */
  lemma SelectedIffInInterval(os: seq<WeightedOption>, x: real, k: nat)
    requires Accumulated(os) && NonNegative(os) && k < |os|
    ensures FirstAbove(os, x) == k <==>
      (k == 0 || os[k - 1].cumulativeWeight <= x) && x < os[k].cumulativeWeight
    ensures 0 < k ==> os[k].cumulativeWeight - os[k - 1].cumulativeWeight == os[k].weight
  {
    if 0 < k {
      CumulativeStep(os, k);
    }
    var f := FirstAbove(os, x);
    if (k == 0 || os[k - 1].cumulativeWeight <= x) && x < os[k].cumulativeWeight {
      if f < k {
        CumulativeMonotone(os, f, k - 1);
      }
    }
  }

  /** A zero-weight option is never drawn by a non-negative scaled draw. */
  lemma ZeroWeightNeverDrawn(os: seq<WeightedOption>, x: real)
    requires Accumulated(os) && 0.0 <= x && FirstAbove(os, x) < |os|
    ensures os[FirstAbove(os, x)].weight > 0.0
  {
    var k := FirstAbove(os, x);
    if k == 0 {
      TotalWeightAppend([], os[0]);
      assert [] + [os[0]] == os[..1];
    } else {
      CumulativeStep(os, k);
    }
  }

  lemma {:induction false} TotalOfZeroWeights(os: seq<WeightedOption>)
    requires forall i :: 0 <= i < |os| ==> os[i].weight == 0.0
    ensures TotalWeight(os) == 0.0
  {
    if os != [] {
      TotalOfZeroWeights(os[..|os| - 1]);
    }
  }

  /** When every weight is zero, no cumulative weight exceeds the scaled draw
      (which is zero), so the scan runs off the end of the list. */
  lemma AllZeroWeightsScanPastEnd(os: seq<WeightedOption>, u: real)
    requires Accumulated(os) && |os| > 0
    requires forall i :: 0 <= i < |os| ==> os[i].weight == 0.0
    ensures LastCumulative(os) * u == 0.0
    ensures FirstAbove(os, LastCumulative(os) * u) == |os|
  {
    forall i | 0 <= i < |os|
      ensures os[i].cumulativeWeight == 0.0
    {
      TotalOfZeroWeights(os[..i + 1]);
    }
  }

  /** The draw over {A:1, B:1, C:1} with u = 0, 0.5 and 0.99999 picks A, B and C. */
  lemma EqualWeightsCoverage()
    ensures var os := [WeightedOption("A", 1.0, 1.0), WeightedOption("B", 1.0, 2.0),
                       WeightedOption("C", 1.0, 3.0)];
      && Accumulated(os)
      && os[FirstAbove(os, LastCumulative(os) * 0.0)].name == "A"
      && os[FirstAbove(os, LastCumulative(os) * 0.5)].name == "B"
      && os[FirstAbove(os, LastCumulative(os) * 0.99999)].name == "C"
  {
    var a, b, c := WeightedOption("A", 1.0, 1.0), WeightedOption("B", 1.0, 2.0),
                   WeightedOption("C", 1.0, 3.0);
    AccumulatedAppend([], a);
    assert [] + [a] == [a];
    AccumulatedAppend([a], b);
    assert [a] + [b] == [a, b];
    AccumulatedAppend([a, b], c);
    assert [a, b] + [c] == [a, b, c];
    var os := [a, b, c];
    assert os[1..] == [b, c] && os[1..][1..] == [c];
  }

  /** In the unweighted shape the first option has cumulative weight 0, so no
      non-negative draw selects it, and the list is not accumulated. */
  lemma IndexWeightedFirstUnreachable(os: seq<WeightedOption>, labels: seq<string>, x: real)
    requires IndexWeighted(os, labels) && |labels| > 0 && 0.0 <= x
    ensures FirstAbove(os, x) != 0
    ensures !Accumulated(os)
  {
    TotalWeightAppend([], os[0]);
    assert [] + [os[0]] == os[..1];
  }

  /** With every weight 1, option `k` is drawn exactly for `k <= x < k + 1`. */
  lemma UnitWeightsEachDrawable(os: seq<WeightedOption>, x: real, k: nat)
    requires Accumulated(os) && k < |os| && 0.0 <= x
    requires forall i :: 0 <= i < |os| ==> os[i].weight == 1.0
    ensures FirstAbove(os, x) == k <==> k as real <= x < (k + 1) as real
  {
    forall i | 0 <= i < |os|
      ensures os[i].cumulativeWeight == (i + 1) as real
    {
      UnitPrefix(os[..i + 1]);
    }
    SelectedIffInInterval(os, x, k);
  }

  lemma {:induction false} UnitPrefix(os: seq<WeightedOption>)
    requires forall i :: 0 <= i < |os| ==> os[i].weight == 1.0
    ensures TotalWeight(os) == |os| as real
  {
    if os != [] {
      UnitPrefix(os[..|os| - 1]);
    }
  }

  // ---------------------------------------------------------------------------
  // Building the option list

  /** `parseOptionsFile` from mailrandom.go: one option per record, in order,
      with running sums as cumulative weights. The first unparsable weight
      aborts; an input with no records aborts with `NoOptions`. */
  method ParseOptionsFile(records: seq<Record>, parse: ParseFloat) returns (r: Result<seq<WeightedOption>, Error>)
    ensures r.Ok? <==> |records| > 0 && AllParse(parse, WeightTexts(records))
    ensures r.Ok? ==> BuiltFrom(r.value, Labels(records), WeightTexts(records), parse)
    ensures r.Ok? ==> LastCumulative(r.value) == TotalWeight(r.value)
    ensures r.Err? ==>
      || (r.error == NoOptions && |records| == 0)
      || (&& r.error.ParseError?
          && FirstParseFailure(parse, WeightTexts(records), r.error.index)
          && r.error.text == records[r.error.index].weightText)
  {
    var options: seq<WeightedOption> := [];
    var weightSum := 0.0;
    var i := 0;
    while i < |records|
      invariant 0 <= i <= |records|
      invariant |options| == i && Accumulated(options)
      invariant forall j :: 0 <= j < i ==>
        options[j].name == records[j].name && parse(records[j].weightText) == Some(options[j].weight)
      invariant weightSum == TotalWeight(options)
    {
      var weight := parse(records[i].weightText);
      if weight.None? {
        assert WeightTexts(records)[i] == records[i].weightText;
        return Err(ParseError(i, records[i].weightText));
      }
      weightSum := weightSum + weight.value;
      var x := WeightedOption(records[i].name, weight.value, weightSum);
      AccumulatedAppend(options, x);
      options := options + [x];
      i := i + 1;
    }
    if |options| == 0 {
      return Err(NoOptions);
    }
    LastIsTotal(options);
    return Ok(options);
  }

  /** The loop of `parseCommandLineOptions` from mailrandom.go, over the two
      already split lists. When weights are given (a non-empty list), the
      counts must agree and every weight must parse; the options then carry
      running sums. When the weight list is empty, every option gets weight 1
      and cumulative weight equal to its index. */
  method BuildCommandLineOptions(labels: seq<string>, weights: seq<string>, parse: ParseFloat)
    returns (r: Result<seq<WeightedOption>, Error>)
    ensures |weights| > 0 && |labels| != |weights| ==> r == Err(LengthMismatch(|labels|, |weights|))
    ensures |weights| > 0 && |labels| == |weights| ==> (r.Ok? <==> AllParse(parse, weights))
    ensures |weights| > 0 && r.Ok? ==> BuiltFrom(r.value, labels, weights, parse)
    ensures r.Err? && r.error.ParseError? ==>
      FirstParseFailure(parse, weights, r.error.index) && r.error.text == weights[r.error.index]
    ensures r.Err? && r.error.LengthMismatch? ==>
      |weights| > 0 && |labels| != |weights| && r.error == LengthMismatch(|labels|, |weights|)
    ensures r.Err? ==> r.error.LengthMismatch? || r.error.ParseError?
    ensures |weights| == 0 ==> r.Ok? && IndexWeighted(r.value, labels)
  {
    var weightsSpecified := |weights| > 0;
    if weightsSpecified && |labels| != |weights| {
      return Err(LengthMismatch(|labels|, |weights|));
    }
    var sum := 0.0;
    var options := new WeightedOption[|labels|];
    for k := 0 to |labels|
      invariant weightsSpecified ==>
        BuiltFrom(options[..k], labels[..k], weights[..k], parse) && sum == TotalWeight(options[..k])
      invariant !weightsSpecified ==>
        forall j :: 0 <= j < k ==> options[j] == WeightedOption(labels[j], 1.0, j as real)
    {
      var o;
      if weightsSpecified {
        // Go adds the parsed value to the sum before testing the error; after
        // a failure the sum is never used.
        var w := parse(weights[k]);
        if w.None? {
          return Err(ParseError(k, weights[k]));
        }
        sum := sum + w.value;
        o := WeightedOption(labels[k], w.value, sum);
        AccumulatedAppend(options[..k], o);
      } else {
        o := WeightedOption(labels[k], 1.0, k as real);
      }
      options[k] := o;
      assert options[..k + 1] == options[..k] + [o];
    }
    assert options[..] == options[..|labels|];
    assert labels[..|labels|] == labels;
    assert weightsSpecified ==> weights[..|labels|] == weights;
    return Ok(options[..]);
  }

  /** `parseCommandLineOptions` from mailrandom.go, on the values of the `-o`
      and `-w` flags. Because `Split` never returns an empty list, the weights
      always count as given: every success has running-sum cumulative weights,
      an omitted `-w` with several labels is a length mismatch, and with one
      label it fails to parse the empty weight text. */
  method ParseCommandLineOptions(optionsInput: string, weightsInput: string, parse: ParseFloat)
    returns (r: Result<seq<WeightedOption>, Error>)
    ensures r.Ok? ==>
      && BuiltFrom(r.value, Strings.Split(optionsInput, ','), Strings.Split(weightsInput, ','), parse)
      && |r.value| > 0
    ensures (Strings.Occurrences(optionsInput, ',') != Strings.Occurrences(weightsInput, ',')) ==>
      r == Err(LengthMismatch(|Strings.Split(optionsInput, ',')|, |Strings.Split(weightsInput, ',')|))
    ensures weightsInput == "" && ',' in optionsInput ==>
      r == Err(LengthMismatch(|Strings.Split(optionsInput, ',')|, 1))
    ensures |Strings.Split(optionsInput, ',')| == |Strings.Split(weightsInput, ',')| ==>
      (r.Ok? <==> AllParse(parse, Strings.Split(weightsInput, ',')))
    ensures r.Err? && r.error.LengthMismatch? ==>
      Strings.Occurrences(optionsInput, ',') != Strings.Occurrences(weightsInput, ',')
    ensures r.Err? ==>
      || r.error.LengthMismatch?
      || (&& r.error.ParseError?
          && FirstParseFailure(parse, Strings.Split(weightsInput, ','), r.error.index)
          && r.error.text == Strings.Split(weightsInput, ',')[r.error.index])
    ensures weightsInput == "" && ',' !in optionsInput && parse("").None? ==>
      r == Err(ParseError(0, ""))
  {
    var labels := Strings.Split(optionsInput, ',');
    var weights := Strings.Split(weightsInput, ',');
    Strings.OccurrencesZero(optionsInput, ',');
    r := BuildCommandLineOptions(labels, weights, parse);
    if weightsInput == "" && ',' !in optionsInput && parse("").None? {
      assert weights == [""] && |labels| == 1;
      assert parse(weights[0]).None?;
    }
  }

  /** `parseCommandLineOptions` as its comment describes it: weights count as
      given only when `-w` is non-empty, and otherwise the options are equally
      weighted, with cumulative weights 1, 2, 3, ... */
  method ParseCommandLineOptionsFixed(optionsInput: string, weightsInput: string, parse: ParseFloat)
    returns (r: Result<seq<WeightedOption>, Error>)
    ensures weightsInput != "" && r.Ok? ==>
      BuiltFrom(r.value, Strings.Split(optionsInput, ','), Strings.Split(weightsInput, ','), parse)
    ensures (weightsInput != "" &&
      Strings.Occurrences(optionsInput, ',') != Strings.Occurrences(weightsInput, ',')) ==>
      r == Err(LengthMismatch(|Strings.Split(optionsInput, ',')|, |Strings.Split(weightsInput, ',')|))
    ensures (weightsInput != "" &&
      |Strings.Split(optionsInput, ',')| == |Strings.Split(weightsInput, ',')|) ==>
      (r.Ok? <==> AllParse(parse, Strings.Split(weightsInput, ',')))
    ensures weightsInput != "" && r.Err? && r.error.LengthMismatch? ==>
      Strings.Occurrences(optionsInput, ',') != Strings.Occurrences(weightsInput, ',')
    ensures weightsInput != "" && r.Err? ==>
      || r.error.LengthMismatch?
      || (&& r.error.ParseError?
          && FirstParseFailure(parse, Strings.Split(weightsInput, ','), r.error.index)
          && r.error.text == Strings.Split(weightsInput, ',')[r.error.index])
    ensures weightsInput == "" ==>
      && r.Ok?
      && |r.value| == |Strings.Split(optionsInput, ',')|
      && Accumulated(r.value)
      && forall i :: 0 <= i < |r.value| ==>
           r.value[i].name == Strings.Split(optionsInput, ',')[i] && r.value[i].weight == 1.0
  {
    var labels := Strings.Split(optionsInput, ',');
    if weightsInput != "" {
      r := BuildCommandLineOptions(labels, Strings.Split(weightsInput, ','), parse);
      return;
    }
    var sum := 0.0;
    var options := new WeightedOption[|labels|];
    for k := 0 to |labels|
      invariant Accumulated(options[..k]) && sum == TotalWeight(options[..k])
      invariant forall j :: 0 <= j < k ==> options[j].name == labels[j] && options[j].weight == 1.0
    {
      sum := sum + 1.0;
      var o := WeightedOption(labels[k], 1.0, sum);
      AccumulatedAppend(options[..k], o);
      options[k] := o;
      assert options[..k + 1] == options[..k] + [o];
    }
    assert options[..] == options[..|labels|];
    return Ok(options[..]);
  }

  // ---------------------------------------------------------------------------
  // The draw

  /** `selectOption` from mailrandom.go, with the uniform draw `u` as a
      parameter: scale `u` by the last cumulative weight and return the label
      of the first option whose cumulative weight exceeds it. The loop bound
      `k <= len(options)` lets the scan read one element past the end when no
      option qualifies; that read is `IndexOutOfRange`. */
  method SelectOption(options: seq<WeightedOption>, u: real) returns (r: Result<string, Error>)
    requires |options| > 0
    ensures var k := FirstAbove(options, LastCumulative(options) * u);
      r == if k < |options| then Ok(options[k].name) else Err(IndexOutOfRange(|options|))
    ensures 0.0 <= u < 1.0 && LastCumulative(options) > 0.0 ==> r.Ok?
  {
    if 0.0 <= u < 1.0 && LastCumulative(options) > 0.0 {
      DrawInBounds(options, u);
    }
    var x := LastCumulative(options) * u;
    var k := 0;
    while k <= |options|
      invariant 0 <= k <= |options|
      invariant forall j :: 0 <= j < k ==> options[j].cumulativeWeight <= x
    {
      if k == |options| {
        FirstAboveUnique(options, x, k);
        return Err(IndexOutOfRange(k));
      }
      if x < options[k].cumulativeWeight {
        FirstAboveUnique(options, x, k);
        return Ok(options[k].name);
      }
      k := k + 1;
    }
    return Ok("");
  }

  /** `selectOption` with the scan bounded by the list: the same label when an
      option qualifies, and `NoSelectableOption` instead of an out-of-range
      read when none does. */
  method SelectOptionChecked(options: seq<WeightedOption>, u: real) returns (r: Result<string, Error>)
    requires |options| > 0
    ensures var k := FirstAbove(options, LastCumulative(options) * u);
      r == if k < |options| then Ok(options[k].name) else Err(NoSelectableOption)
    ensures 0.0 <= u < 1.0 && LastCumulative(options) > 0.0 ==> r.Ok?
  {
    if 0.0 <= u < 1.0 && LastCumulative(options) > 0.0 {
      DrawInBounds(options, u);
    }
    var x := LastCumulative(options) * u;
    for k := 0 to |options|
      invariant forall j :: 0 <= j < k ==> options[j].cumulativeWeight <= x
    {
      if x < options[k].cumulativeWeight {
        FirstAboveUnique(options, x, k);
        return Ok(options[k].name);
      }
    }
    FirstAboveUnique(options, x, |options|);
    return Err(NoSelectableOption);
  }
}
