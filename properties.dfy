/** What `calculate_vram` and the upper-casing in `main` promise, proved
    about the model in module GPUme. */
module GPUmeProperties {
  import Text
  import opened GPUme

  /** The supported labels, in the order the table lists them. */
  lemma LabelsInTableOrder()
    ensures Labels() == ["FP32", "FP16", "FP8", "INT8", "FP4", "INT4"]
  {
    KeysInTableOrder(PrecisionTable);
  }

  /** The table is a dictionary: no label appears twice. */
  lemma TableKeysDistinct()
    ensures DistinctKeys(PrecisionTable)
  {
    LabelsInTableOrder();
    KeysInTableOrder(PrecisionTable);
  }

  /** The estimator answers with a value exactly for the six labels of the
      table, spelled exactly; any other string gets the error. */
  lemma AcceptsExactlyTableLabels(n: real, precision: string)
    ensures CalculateVram(n, precision).Ok? <==> precision in Labels()
  {
    LookupSucceedsOnKeys(PrecisionTable, precision);
  }

  /** For every entry of the table, the estimate for its label is
      `n * 1e9 * b / 1024 ** 3` with `b` the entry's bytes per parameter. */
  lemma FormulaForEachLabel(n: real, i: nat)
    requires i < |PrecisionTable|
    ensures CalculateVram(n, PrecisionTable[i].0)
         == Ok(n * 1000000000.0 * PrecisionTable[i].1 / 1073741824.0)
  {
    TableKeysDistinct();
    LookupFindsEntry(PrecisionTable, PrecisionTable[i].0, PrecisionTable[i].1);
  }

  /** Every supported label has one cost in the table; it is positive, and
      the estimate for that label is the formula applied to it. */
  lemma SupportedHasCost(precision: string) returns (bytesPerParam: real)
    requires precision in Labels()
    ensures (precision, bytesPerParam) in PrecisionTable
    ensures bytesPerParam > 0.0
    ensures forall n :: CalculateVram(n, precision) == Ok(Gigabytes(n, bytesPerParam))
  {
    KeysInTableOrder(PrecisionTable);
    var i :| 0 <= i < |Labels()| && Labels()[i] == precision;
    bytesPerParam := PrecisionTable[i].1;
    forall n ensures CalculateVram(n, precision) == Ok(Gigabytes(n, bytesPerParam)) {
      FormulaForEachLabel(n, i);
    }
  }

  /** Joining the six labels with ", " gives the list the error message shows. */
  lemma JoinOfLabelList()
    ensures Text.Join(["FP32", "FP16", "FP8", "INT8", "FP4", "INT4"], ", ") == "FP32, FP16, FP8, INT8, FP4, INT4"
  {
  }

  /** `', '.join(precision_map.keys())` spells out the six labels in table order. */
  lemma SupportedListText()
    ensures Text.Join(Labels(), ", ") == "FP32, FP16, FP8, INT8, FP4, INT4"
  {
    LabelsInTableOrder();
    JoinOfLabelList();
  }

  /** An unsupported label, whatever the count, gives the ValueError naming
      the label and listing the supported ones in table order; no value. */
  lemma InvalidPrecisionError(n: real, precision: string)
    requires precision !in Labels()
    ensures CalculateVram(n, precision)
         == InvalidPrecision("Invalid precision '" + precision + "'. Supported precisions are: "
                             + "FP32, FP16, FP8, INT8, FP4, INT4")
  {
    LookupSucceedsOnKeys(PrecisionTable, precision);
    SupportedListText();
  }

  /** FP8 and INT8 cost the same, and so do FP4 and INT4. */
  lemma SameWidthLabelsAgree(n: real)
    ensures CalculateVram(n, "FP8") == CalculateVram(n, "INT8")
    ensures CalculateVram(n, "FP4") == CalculateVram(n, "INT4")
  {
    FormulaForEachLabel(n, 2);
    FormulaForEachLabel(n, 3);
    FormulaForEachLabel(n, 4);
    FormulaForEachLabel(n, 5);
  }

  /** Halving the width halves the memory: FP32 = 2 FP16 = 4 FP8 = 8 FP4. */
  lemma PrecisionRatios(n: real)
    ensures CalculateVram(n, "FP32").Ok? && CalculateVram(n, "FP16").Ok?
    ensures CalculateVram(n, "FP8").Ok? && CalculateVram(n, "FP4").Ok?
    ensures CalculateVram(n, "FP32").gb == 2.0 * CalculateVram(n, "FP16").gb
    ensures CalculateVram(n, "FP32").gb == 4.0 * CalculateVram(n, "FP8").gb
    ensures CalculateVram(n, "FP32").gb == 8.0 * CalculateVram(n, "FP4").gb
  {
    FormulaForEachLabel(n, 0);
    FormulaForEachLabel(n, 1);
    FormulaForEachLabel(n, 2);
    FormulaForEachLabel(n, 4);
  }

  /** The estimate is linear in the count: scaling it by `k` scales the result by `k`. */
  lemma LinearInCount(n: real, k: real, precision: string)
    requires precision in Labels()
    ensures CalculateVram(k * n, precision).Ok? && CalculateVram(n, precision).Ok?
    ensures CalculateVram(k * n, precision).gb == k * CalculateVram(n, precision).gb
  {
    KeysInTableOrder(PrecisionTable);
    var i :| 0 <= i < |Labels()| && Labels()[i] == precision;
    FormulaForEachLabel(n, i);
    FormulaForEachLabel(k * n, i);
  }

  /** A count of zero needs no memory, for every supported label. */
  lemma ZeroCountIsZero(precision: string)
    requires precision in Labels()
    ensures CalculateVram(0.0, precision) == Ok(0.0)
  {
    var b := SupportedHasCost(precision);
  }

  /** More parameters never fit in less memory: the estimate strictly grows with the count. */
  lemma StrictlyIncreasingInCount(n1: real, n2: real, precision: string)
    requires precision in Labels()
    requires n1 < n2
    ensures CalculateVram(n1, precision).Ok? && CalculateVram(n2, precision).Ok?
    ensures CalculateVram(n1, precision).gb < CalculateVram(n2, precision).gb
  {
    var b := SupportedHasCost(precision);
    assert n1 * ParamsPerBillion * b < n2 * ParamsPerBillion * b;
  }

  /** The count is not checked: the sign of the estimate is the sign of the
      count, so a negative count yields a negative estimate rather than an error. */
  lemma SignFollowsCount(n: real, precision: string)
    requires precision in Labels()
    ensures CalculateVram(n, precision).Ok?
    ensures CalculateVram(n, precision).gb > 0.0 <==> n > 0.0
    ensures CalculateVram(n, precision).gb < 0.0 <==> n < 0.0
  {
    ZeroCountIsZero(precision);
    if n < 0.0 {
      StrictlyIncreasingInCount(n, 0.0, precision);
    } else if n > 0.0 {
      StrictlyIncreasingInCount(0.0, n, precision);
    }
  }

  /** Matching inside the estimator is case-sensitive: "fp16" is rejected there. */
  lemma EstimatorIsCaseSensitive(n: real)
    ensures CalculateVram(n, "fp16").InvalidPrecision?
  {
    AcceptsExactlyTableLabels(n, "fp16");
    LabelsInTableOrder();
    assert "fp16"[0] == 'f';
  }

  /** The upper-casing in `main` makes "fp16" reach the FP16 result. */
  lemma MainAcceptsLowerCase(n: real)
    ensures Estimate(n, "fp16") == ("FP16", CalculateVram(n, "FP16"))
    ensures Estimate(n, "fp16").1.Ok?
  {
    assert Text.ToUpper("fp16") == "FP16";
    FormulaForEachLabel(n, 1);
  }

  /** Every label is already upper case, so upper-casing leaves it alone. */
  lemma LabelsHaveNoLowerCase(name: string)
    requires name in Labels()
    ensures Text.NoLowerAscii(name)
  {
    LabelsInTableOrder();
  }

  /** Any spelling of a supported label up to ASCII case gets that label's result through `main`. */
  lemma EstimateOfCaseVariant(n: real, typed: string, name: string)
    requires name in Labels()
    requires Text.CaseVariant(typed, name)
    ensures Estimate(n, typed) == (name, CalculateVram(n, name))
  {
    LabelsHaveNoLowerCase(name);
    Text.ToUpperOfCaseVariant(typed, name);
  }

  /** Through `main`, a typed precision is accepted exactly when it spells
      a supported label up to ASCII case. */
  lemma EstimateAcceptsExactlyCaseVariants(n: real, typed: string)
    ensures Estimate(n, typed).1.Ok? <==> exists name :: name in Labels() && Text.CaseVariant(typed, name)
  {
    var upper := Text.ToUpper(typed);
    AcceptsExactlyTableLabels(n, upper);
    if Estimate(n, typed).1.Ok? {
      Text.CaseVariantOfToUpper(typed);
      assert upper in Labels() && Text.CaseVariant(typed, upper);
    }
    if name :| name in Labels() && Text.CaseVariant(typed, name) {
      EstimateOfCaseVariant(n, typed, name);
      AcceptsExactlyTableLabels(n, name);
    }
  }

  /** A rejected request through `main` names the upper-cased label in its error. */
  lemma EstimateErrorNamesUpperCased(n: real, typed: string)
    requires Text.ToUpper(typed) !in Labels()
    ensures Estimate(n, typed).1
         == InvalidPrecision("Invalid precision '" + Text.ToUpper(typed) + "'. Supported precisions are: "
                             + "FP32, FP16, FP8, INT8, FP4, INT4")
  {
    InvalidPrecisionError(n, Text.ToUpper(typed));
  }
}
