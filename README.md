# mailrandom: the weighted option selector

mailrandom is a command-line tool. It picks one option from a weighted list and
then prints the choice or mails it. This project models the tool's only piece
of logic that is not I/O, the weighted option selector in `mailrandom.go`, and
proves properties of it. The selector has three parts:

- **The options file** (`parseOptionsFile`). Each CSV record `(label, weight)`
  becomes an option. The option also stores the running sum of the weights so
  far, its cumulative weight. A weight that does not parse ends the program. So
  does a file with no records.
- **The command line** (`parseCommandLineOptions`). The `-o` and `-w` flag
  values are split at commas. The two counts must agree, and each weight is
  parsed. The options get the same running sums as in the file path.
- **The draw** (`selectOption`). A uniform value `u` in `[0, 1)` is scaled by
  the last cumulative weight. The result is the label of the first option whose
  cumulative weight is strictly greater than the scaled value.

Modelling choices:

- Weights are `real`, not float64.
- `strconv.ParseFloat` is a parameter `parse: string -> Option<real>`. It stands
  for any partial parser.
- The random draw `u` is a parameter, not the time-seeded generator.
- Each way the program can die (`fatal`, `log.Fatal`, `panic`, an index out of
  range) is an `Err` value of `MailRandom.Error`.
- `label` is a reserved word in Dafny, so the option's `label` field is called
  `name` in the model.
- The three loops are methods with loop invariants. The command-line builder
  fills an array, as the Go slice from `make` is filled. Each method is proved
  against reference definitions:
  - `TotalWeight`: the sum of the weights.
  - `Accumulated`: every cumulative weight is a prefix sum.
  - `BuiltFrom`: the option list, position by position.
  - `FirstAbove`: the index that the scan stops at.
- `strings.Split` on one separator character is modelled in module `Strings`,
  with `Join` as its proved inverse. The command-line behaviour depends on
  `Split` never returning an empty list.

Three behaviours of the code matter for reading the model:

- The comment at mailrandom.go:95-96 promises equal weighting when `-w` is
  omitted. That branch never runs, because `strings.Split` never returns an
  empty list, so `weightsSpecified` is always true. Leaving out `-w` is a
  length mismatch when there are several labels, and a parse error on `""`
  when there is one.
- A count mismatch between labels and weights fails even when `-w` was never
  given.
- With all weights zero, the draw reads past the end of the list instead of
  failing with a defined error. The `return ""` at line 134 can never be
  reached.

Files: `wrappers.dfy` (Option and Result), `strings.dfy` (Split and Join),
`mailrandom.dfy` (the selector).

## Model

| member | source | states |
|---|---|---|
| `Strings.Split` | mailrandom.go:98-99 | `strings.Split` returns one more piece than there are separators, so it is never empty. No piece contains the separator. |
| `Strings.JoinSplit` | mailrandom.go:98-99 | Joining the pieces of a split with the separator gives back the original flag text. |
| `Strings.SplitJoin` | mailrandom.go:98-99 | Splitting a join of separator-free pieces gives back exactly those pieces. Split is injective on such lists. |
| `MailRandom.ParseOptionsFile` | mailrandom.go:65-93 | Succeeds exactly when there is at least one record and every weight parses. On success, option i has record i's label and parsed weight, every cumulative weight is the sum of the weights up to and including it, and the last one is the total. Otherwise the error is `NoOptions` for an empty input, or a `ParseError` naming the first unparsable record and its text. |
| `MailRandom.LastIsTotal` | mailrandom.go:81-85 | In an accumulated list, the last cumulative weight (the draw's `sum`) equals the sum of all weights. |
| `MailRandom.CumulativeStep` | mailrandom.go:81-85 | Consecutive cumulative weights differ by exactly the later weight. They are equal exactly when that weight is zero, and they decrease when it is negative. |
| `MailRandom.CumulativeMonotone` | mailrandom.go:77-86 | When every weight is non-negative, cumulative weights never decrease along the list. |
| `MailRandom.NegativeWeightBreaksMonotonicity` | mailrandom.go:77-81 | A negative weight is accepted and gives an accumulated list whose cumulative weights decrease. |
| `MailRandom.BuildCommandLineOptions` | mailrandom.go:100-120 | With a non-empty weight list, a count mismatch fails with `LengthMismatch`, and with matching counts the build succeeds exactly when every weight parses. A success holds exactly one option per label, in order, with parsed weights and running sums. A failure names the first unparsable weight. With an empty weight list, every option gets weight 1 and cumulative weight equal to its 0-based index. |
| `MailRandom.ParseCommandLineOptions` | mailrandom.go:97-121 | On the raw flag values, with matching counts the result is `Ok` exactly when every split weight parses, and every success is a non-empty, running-sum list built from the split labels and weights. Every failure is a `LengthMismatch`, which happens only when the comma counts differ, or a `ParseError` naming the first unparsable weight and its text. If the comma counts differ, the result is `LengthMismatch`. If `-w` is omitted, the result is `LengthMismatch` for several labels, and `ParseError(0, "")` for one label when `""` does not parse (`strconv.ParseFloat("")` fails). The equal-weights branch is never reached. |
| `MailRandom.IndexWeightedFirstUnreachable` | mailrandom.go:116 | The options that the equal-weights branch would build are not accumulated. Their first option has cumulative weight 0, so no non-negative draw selects it. |
| `MailRandom.ParseCommandLineOptionsFixed` | mailrandom.go:95-120 | Treats weights as given only when `-w` is non-empty. Given weights behave as in the code: a count mismatch is `LengthMismatch`, with matching counts the result is `Ok` exactly when every weight parses, a success is built from the split lists, and any other failure names the first unparsable weight. Omitted weights always succeed and give one option per label, each with weight 1, as an accumulated list. |
| `MailRandom.FirstAbove` | mailrandom.go:129-133 | The scan's stopping index is at most the length. No cumulative weight before it exceeds x. If it is inside the list, that option's cumulative weight does exceed x. |
| `MailRandom.FirstAboveUnique` | mailrandom.go:129-133 | Any index with those three properties is the scan's stopping index. The first hit is unique. |
| `MailRandom.SelectOption` | mailrandom.go:124-135 | Scales u by the last cumulative weight. Returns the label at the first index whose cumulative weight exceeds that value. When there is no such index, the `k <= len(options)` bound reads one element past the end (`IndexOutOfRange`). It returns a label whenever `0 <= u < 1` and the total is positive. |
| `MailRandom.SelectOptionChecked` | mailrandom.go:124-134 | The same first-hit label with the scan bounded by the list. `NoSelectableOption` replaces the out-of-range read. It returns a label whenever `0 <= u < 1` and the total is positive. |
| `MailRandom.DrawInBounds` | mailrandom.go:125-131 | When `0 <= u < 1` and the total weight is positive, the scan stops at an index below the length. |
| `MailRandom.SelectedIffInInterval` | mailrandom.go:127-131 | Over non-negative weights, option k is drawn exactly when the scaled value lies in `[cumulative(k-1), cumulative(k))`. Both directions are proved. For k > 0 the interval's length is option k's weight. |
| `MailRandom.ZeroWeightNeverDrawn` | mailrandom.go:127-131 | A non-negative scaled value never selects an option of weight zero or less. |
| `MailRandom.AllZeroWeightsScanPastEnd` | mailrandom.go:125-130 | When every weight is zero, the scaled value is 0 and no cumulative weight exceeds it. The scan runs past the last option. |
| `MailRandom.EqualWeightsCoverage` | mailrandom.go:125-131 | For {A:1, B:1, C:1}, the draws u = 0, 0.5 and 0.99999 select A, B and C. |
| `MailRandom.UnitWeightsEachDrawable` | mailrandom.go:127-131 | In an accumulated list of weight-1 options, option k is drawn exactly when `k <= x < k + 1`. Every option of the corrected equal-weights path can be drawn, each with an equal share. |

## Left out

- `main`, the flag globals, the usage text, `displayMailHelp` and process exit: command-line plumbing. The flag values are parameters, and exits are `Err` results.
- `main`'s check that the option list is non-empty (mailrandom.go:202-205) is not modelled. It appears only as the `requires |options| > 0` of the two draw methods.
- CSV reading with `encoding/csv` and `os.Open`: file I/O and a foreign parser. Records are given as `(label, weightText)` pairs. So a record with only one field, where `record[1]` panics, is not modelled, and extra fields are dropped.
- `parseMailConfig` and `sendMail`: JSON decoding, SMTP and environment lookups, all foreign or I/O.
- The time-seeded random generator: nondeterministic. The draw `u` is a parameter, and `0 <= u < 1` is assumed only by the lemmas and ensures that need it.
- float64 arithmetic: rounding, overflow, and the NaN and infinity values that `ParseFloat` accepts. Weights are exact reals. In Go a NaN weight would also make the scan run past the end; the model does not show that.
- `strconv.ParseFloat`'s internals: it is the abstract `parse`. Go adds the value returned with a parse error to the running sum before panicking. The model skips that addition, because the sum is never used after a failure.
- `return ""` at mailrandom.go:134 can never be reached. The model keeps it as an `Ok("")` after the loop, and no path reaches it.

## Findings

| source | as written | input that shows it | evidently intended | confidence | as-written member | corrected member |
|---|---|---|---|---|---|---|
| mailrandom.go:129 | The loop `for k := 0; k <= len(options); k++` reads `options[len(options)]` when no cumulative weight exceeds the scaled draw. | An options file with records `a,0` and `b,0`: the total is 0, the scaled draw is 0, and no cumulative weight exceeds 0. | Bound the scan by `k < len(options)` and fail with a defined error when no option qualifies. | high, not executed | `MailRandom.SelectOption` with `MailRandom.AllZeroWeightsScanPastEnd` | `MailRandom.SelectOptionChecked` with `MailRandom.DrawInBounds` |
| mailrandom.go:100 | `weightsSpecified := len(weights) > 0` is always true, because `strings.Split` never returns an empty list. | `-o "a,b"` without `-w` fails with the length-mismatch panic. `-o a` without `-w` fails to parse `""`. | As the comment at mailrandom.go:95-96 says: without `-w`, the options are equally weighted. | high, not executed | `MailRandom.ParseCommandLineOptions` | `MailRandom.ParseCommandLineOptionsFixed` with `MailRandom.UnitWeightsEachDrawable` |
| mailrandom.go:116 | The unweighted branch sets cumulative weight `float64(k)`, so the first option has cumulative weight 0. This code is dead as written. | labels `a,b` with an empty weight list: the options get cumulative weights 0 and 1, and `a` can never be drawn. | Cumulative weight `k + 1`, so that every option has an equal share. | high, not executed | `MailRandom.BuildCommandLineOptions` with `MailRandom.IndexWeightedFirstUnreachable` | `MailRandom.ParseCommandLineOptionsFixed` with `MailRandom.UnitWeightsEachDrawable` |
