# GPUme VRAM estimator, modelled in Dafny

GPUme estimates how much GPU memory (VRAM) the parameters of a large language
model occupy. `calculate_vram` takes a parameter count in billions and a
precision label. The label is checked against a fixed table of six labels
(FP32, FP16, FP8, INT8, FP4, INT4) that gives the bytes each parameter takes.
An unknown label raises a `ValueError` whose message names the label and lists
the supported ones. A known label gives `n * 1e9 * bytes / 1024 ** 3` GB. The
console wrapper `main` upper-cases the precision the user types before calling
the estimator.

The model is pure, like the source:

- `text.dfy`, module `Text`: `Join` (Python's `str.join`) and `ToUpper`
  (Python's `str.upper`, on ASCII letters), plus the predicate `CaseVariant`
  ("spells the same text up to ASCII letter case").
- `gpume.dfy`, module `GPUme`: the table `PrecisionTable` as an ordered
  `seq<(string, real)>` in the dictionary's key order; `Keys` and `Lookup`
  for the dictionary's `keys()`, `in` and `[]`; the error text
  `InvalidPrecisionMessage`; the formula `Gigabytes`; `CalculateVram`, which
  returns `Ok(gb)` or `InvalidPrecision(message)`; and `Estimate`, the part of
  `main` that upper-cases the typed precision and calls the estimator.
- `properties.dfy`, module `GPUmeProperties`: lemmas stating what the
  estimator promises.

Arithmetic is over exact reals, with the constants `1000000000.0` (`1e9`) and
`1073741824.0` (`1024 ** 3`). The docstring (GPUme.py:6) puts no sign on the
parameter count, and neither the code nor the model checks it. A negative or
zero count passes through the arithmetic.

## Model

| member | source | states |
|---|---|---|
| GPUme.CalculateVram | GPUme.py:1-32 | `calculate_vram` with the table `PrecisionTable` (GPUme.py:13-20) as its dictionary; its contract is carried by AcceptsExactlyTableLabels (value exactly for the six labels), InvalidPrecisionError (exact error text otherwise), FormulaForEachLabel and SupportedHasCost (the formula at the label's cost) |
| GPUme.Estimate | GPUme.py:50-53 | the upper-case-then-call step of `main`; its contract is carried by EstimateAcceptsExactlyCaseVariants, EstimateOfCaseVariant, MainAcceptsLowerCase and EstimateErrorNamesUpperCased |
| GPUme.Lookup | GPUme.py:23-28 | the dictionary's `in` test and `[]`; its contract is carried by LookupSucceedsOnKeys (succeeds exactly on the keys, finds a stored value) and LookupFindsEntry (finds the value stored under a key when keys are distinct) |
| GPUme.Keys | GPUme.py:24 | `precision_map.keys()`; its contract is carried by KeysInTableOrder (one key per entry, in table order) |
| GPUme.InvalidPrecisionMessage | GPUme.py:24 | the f-string of the ValueError; its contract is carried by InvalidPrecisionError (the exact text, naming the label and listing the six labels in table order) |
| GPUme.Gigabytes | GPUme.py:27-31 | `n * 1e9 * b / 1024 ** 3`; its contract is carried by FormulaForEachLabel, LinearInCount, ZeroCountIsZero and StrictlyIncreasingInCount |
| Text.Join | GPUme.py:24 | `', '.join(...)`; its contract is carried by JoinOfLabelList and SupportedListText (the six labels joined give "FP32, FP16, FP8, INT8, FP4, INT4") |
| Text.UpperChar | GPUme.py:50 | an ASCII lower-case letter becomes the capital 32 code points below it; every other character is unchanged |
| Text.ToUpper | GPUme.py:50 | `upper()` keeps the length, capitalises each ASCII lower-case letter in place, and leaves no lower-case letter behind |
| Text.ToUpperOfCaseVariant | GPUme.py:50 | upper-casing any mixed-case spelling of a text that has no lower-case letters gives exactly that text |
| Text.CaseVariantOfToUpper | GPUme.py:50 | every input is a mixed-case spelling of its own upper-casing |
| Text.ToUpperIdempotent | GPUme.py:50 | upper-casing a second time changes nothing |
| GPUme.KeysInTableOrder | GPUme.py:24 | `keys()` lists every entry's label, one per entry, in table order |
| GPUme.LookupSucceedsOnKeys | GPUme.py:23-28 | a lookup succeeds exactly when the label is one of the keys (the `in` test), and the value found is stored under that label |
| GPUme.LookupFindsEntry | GPUme.py:13-28 | in a table whose keys are distinct, looking up a stored label returns the value stored with it |
| GPUmeProperties.LabelsInTableOrder | GPUme.py:13-20 | the supported labels are FP32, FP16, FP8, INT8, FP4, INT4, in that order |
| GPUmeProperties.TableKeysDistinct | GPUme.py:13-20 | no label appears twice in the table |
| GPUmeProperties.AcceptsExactlyTableLabels | GPUme.py:23-24 | the estimator returns a value if and only if the precision is exactly one of the six labels; otherwise it returns the error |
| GPUmeProperties.FormulaForEachLabel | GPUme.py:27-31 | for every table entry (label, b), the estimate for that label is `n * 1e9 * b / 1024^3` |
| GPUmeProperties.SupportedHasCost | GPUme.py:13-31 | every supported label has a byte cost in the table, that cost is positive, and the estimate for the label is the formula at that cost, for every count |
| GPUmeProperties.JoinOfLabelList | GPUme.py:24 | joining the six labels with ", " gives "FP32, FP16, FP8, INT8, FP4, INT4" |
| GPUmeProperties.SupportedListText | GPUme.py:24 | `', '.join(precision_map.keys())` is "FP32, FP16, FP8, INT8, FP4, INT4" |
| GPUmeProperties.InvalidPrecisionError | GPUme.py:23-24 | any other precision, for any count, gives exactly the error "Invalid precision '<label>'. Supported precisions are: FP32, FP16, FP8, INT8, FP4, INT4", and no value |
| GPUmeProperties.SameWidthLabelsAgree | GPUme.py:16-19 | FP8 and INT8 give the same result for every count, and so do FP4 and INT4 |
| GPUmeProperties.PrecisionRatios | GPUme.py:14-19 | for every count, FP32 = 2 x FP16 = 4 x FP8 = 8 x FP4 |
| GPUmeProperties.LinearInCount | GPUme.py:27-31 | for a supported label, scaling the count by k scales the estimate by k |
| GPUmeProperties.ZeroCountIsZero | GPUme.py:27-31 | a count of zero gives an estimate of zero for every supported label |
| GPUmeProperties.StrictlyIncreasingInCount | GPUme.py:13-31 | for a supported label, a larger count gives a strictly larger estimate |
| GPUmeProperties.SignFollowsCount | GPUme.py:27-31 | counts are not rejected: the estimate is positive, zero or negative exactly as the count is |
| GPUmeProperties.EstimatorIsCaseSensitive | GPUme.py:23 | the estimator itself rejects "fp16" |
| GPUmeProperties.MainAcceptsLowerCase | GPUme.py:50-53 | after `main` upper-cases it, "fp16" is accepted and gives the FP16 result under the label "FP16" |
| GPUmeProperties.LabelsHaveNoLowerCase | GPUme.py:13-20 | no supported label contains a lower-case letter |
| GPUmeProperties.EstimateOfCaseVariant | GPUme.py:50-53 | any mixed-case spelling of a supported label, typed into `main`, gives that label and its result |
| GPUmeProperties.EstimateAcceptsExactlyCaseVariants | GPUme.py:50-53 | through `main`, a typed precision gets a value if and only if it spells a supported label up to ASCII case |
| GPUmeProperties.EstimateErrorNamesUpperCased | GPUme.py:50-57 | a precision rejected through `main` gets the error that names its upper-cased form and lists the six labels |

## Left out

- Console I/O in `main` (GPUme.py:39-57): the menu, the prompts, the success sentence and the `Error:` line. `Estimate` keeps only the computation, which upper-cases the precision and calls the estimator.
- Parsing the count with `float()` (GPUme.py:49) and its `ValueError`. The model takes the count as an already-parsed real.
- Floating point. The model computes over exact reals, so IEEE-754 rounding is not modelled, and neither are NaN and infinite counts. The `.1f`/`.2f` formatting of the output (GPUme.py:54) is left out as well.
- Text.ToUpper: models `str.upper()` on ASCII letters only. Python also upper-cases non-ASCII letters, and some change length. The dotless "ı" (U+0131) becomes "I", for example, so Python would accept "ınt8" as INT8. This model rejects it.
- Python's dynamic typing: a precision that is not a string, or a count that is not a number. The model types both.
- The `__main__` entry guard (GPUme.py:61-62).
