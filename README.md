# Genotype statistics, true-genotype labelling and time-series labels, in Dafny

This project models three pieces of a variant-calling pipeline and proves properties of them.

- **`StatsAccumulator`** (module `Performance`). This is the streaming accumulator of
  genotype-calling statistics. Each `observe` call updates some of its nineteen Java `int` counters
  under several overlapping classifications:
  - variant or not;
  - concordance;
  - per-type accuracy for indels and SNPs;
  - indel and SNP confusion cells.

  The class keeps the counters in one record (`Tallies`) and keeps a ghost history of the
  observations. Its invariant is `counters == Tally(history)`, where `Tally` folds the
  reference step `Step` over the history; `StepCounts` states what one step does. The counters are unbounded counts. The Java `int`
  a counter holds is `Wrap` of its count: `JavaInt.IncWrap` and `JavaInt.AddWrap` show that
  `++` and `+` on wrapping `int`s agree with this. The module also covers three more parts
  of the accumulator:
  - the integer recall denominator (`variantsExpected`);
  - the metric-name switch of `createOutputStatistics(String...)`;
  - `createOutputHeader`.
- **`AddTrueGenotypes.execute`** (module `Tools`). This is the loop that labels
  base-information records. A record whose reference id and position are in the genotype
  map gets the map's genotype and is counted in `numVariantsAdded`. Any other record gets
  the reference genotype `ref|ref`, and a random draw against the sampling rate decides
  whether it is skipped. A record that is not skipped is written:
  - its true genotype is normalised (`|` becomes `/`, then the string is upper-cased);
  - the chosen sample is marked variant or not;
  - each count of that sample is marked called when its allele equals the first or the
    third entry of `genotypes`. For a mapped record those entries are pieces of the
    upper-cased map genotype's `split("|")`. For an unmapped record both are the upper-cased
    reference base; no split happens, and `ref|ref` is upper-cased only when it is written.

  `Label` is the loop body as a value and `Run` is the whole loop. `Execute` and
  `LabelRecord` are the imperative versions, and each is proved equal to its function.
- **`TimeSeriesPrediction`** (module `Prediction`). This is a two-field state machine over
  `int[]` label arrays. Both setters keep the invariant "when both arrays are set, they have
  the same length".

`JavaInt` holds Java's 32-bit `int` arithmetic. `Wrappers` holds `Option` and `Result`.

Several things are parameters of the model rather than parts of it:
- the reference genome, as a function from (reference index, position) to a base;
- the random generator, as the n-th value drawn;
- the genotype map;
- the sample index;
- the reference sampling rate.

These are all fields of `Tools.Env`. The predicates of a genotype prediction (`isCorrect`,
`isVariant`, `isIndel`, `isPredictedIndel`, `isSnp`, `isPredictedSnp`) and the result of
`GenotypeHelper.matchingGenotypes` are uninterpreted booleans in `Performance.GenotypePrediction`.

`Tools.MultiBaseAllelesAreSplit` records a behaviour of the code as written. `split("|")`
cuts a multi-base genotype into single characters too. For `"AT|A"` the pieces compared
are therefore `"A"` and `"|"`, so a count of `"AT"` is never called.

## Model

| member | source | states |
|---|---|---|
| JavaInt.Wrap | genotype/src/main/java/org/campagnelab/dl/genotype/performance/StatsAccumulator.java:15-34 | The Java `int` value of a count. In range, it is the count itself. |
| JavaInt.WrapDiffers | genotype/src/main/java/org/campagnelab/dl/genotype/performance/StatsAccumulator.java:15-34 | Wrapping changes a number by a multiple of 2^32. |
| JavaInt.WrapCongruent | genotype/src/main/java/org/campagnelab/dl/genotype/performance/StatsAccumulator.java:15-34 | Numbers congruent modulo 2^32 wrap to the same `int`. |
| JavaInt.Inc | genotype/src/main/java/org/campagnelab/dl/genotype/performance/StatsAccumulator.java:63 | `x++` on an `int` adds one below the maximum. At the maximum it wraps to the minimum. |
| JavaInt.Add | genotype/src/main/java/org/campagnelab/dl/genotype/performance/StatsAccumulator.java:140 | `a + b` on `int`s is the exact sum whenever that sum is in range. |
| JavaInt.IncWrap | genotype/src/main/java/org/campagnelab/dl/genotype/performance/StatsAccumulator.java:63 | `++` on the `int` of a count gives the `int` of the count plus one, so unbounded counts model the wrapping counters. |
| JavaInt.AddWrap | genotype/src/main/java/org/campagnelab/dl/genotype/performance/StatsAccumulator.java:140 | Adding the `int`s of two counts gives the `int` of their sum. |
| Performance.StepCounts | genotype/src/main/java/org/campagnelab/dl/genotype/performance/StatsAccumulator.java:62-133 | One observation advances `numProcessed` by one and exactly one of TP/TN/FP/FN. It advances one indel confusion cell exactly when the site is a true or predicted indel, and likewise for SNPs. A variant call adds one to indels-processed plus SNPs-processed, and any other call adds nothing there. |
| Performance.TallyConsistent | genotype/src/main/java/org/campagnelab/dl/genotype/performance/StatsAccumulator.java:63-132 | After any sequence of observations: TP+TN+FP+FN == numProcessed; numCorrect == TP+TN; numVariants == TP+FN; concordant ≤ trueOrPredicted ≤ processed; correct ≤ processed for indels and for SNPs; indels + SNPs processed ≤ processed. |
| Performance.TallyProcessed | genotype/src/main/java/org/campagnelab/dl/genotype/performance/StatsAccumulator.java:63 | `numProcessed` of the tally is the number of observations. |
| Performance.StepAdvancesByAtMostOne | genotype/src/main/java/org/campagnelab/dl/genotype/performance/StatsAccumulator.java:62-133 | One observation never decreases a counter, and advances each of the nineteen counters by at most one. |
| Performance.StepAtMost | genotype/src/main/java/org/campagnelab/dl/genotype/performance/StatsAccumulator.java:62-133 | If every counter is at most n, then after one observation every counter is at most n + 1. |
| Performance.TallyAtMostLength | genotype/src/main/java/org/campagnelab/dl/genotype/performance/StatsAccumulator.java:62-133 | After any sequence of observations no counter exceeds the number of observations. |
| Performance.FitsNoWrap | genotype/src/main/java/org/campagnelab/dl/genotype/performance/StatsAccumulator.java:15-34 | When every counter is at most 2^31 − 1, the Java `int` of every counter is the count itself. |
| Performance.TallyVariantSplit | genotype/src/main/java/org/campagnelab/dl/genotype/performance/StatsAccumulator.java:85-103 | Indels processed plus SNPs processed is exactly the number of observations whose prediction is a variant. |
| Performance.VariantSum | genotype/src/main/java/org/campagnelab/dl/genotype/performance/StatsAccumulator.java:131-132 | On consistent counters the check that closes `observe` holds: `numVariants == numTruePositive + numFalseNegative`, on the counts and on the wrapping `int`s. |
| Performance.TallyAppendVariants | genotype/src/main/java/org/campagnelab/dl/genotype/performance/StatsAccumulator.java:62-133 | One step from the tally of a history is the tally of the longer history, and after it the check that closes `observe` holds, on the counts and on the `int`s. |
| Performance.OutputHeader | genotype/src/main/java/org/campagnelab/dl/genotype/performance/StatsAccumulator.java:212-217 | The header has fourteen names, all distinct. |
| Performance.MetricIndex | genotype/src/main/java/org/campagnelab/dl/genotype/performance/StatsAccumulator.java:161-206 | A name the switch recognises selects the index of that name in the header. A name it does not recognise is not in the header. |
| Performance.HeaderSelectsItsIndex | genotype/src/main/java/org/campagnelab/dl/genotype/performance/StatsAccumulator.java:155-219 | The switch selects index j for a name exactly when that name is header entry j. Exactly the header names are recognised. `F1_INDEX` points at "F1". |
| Performance.SelectStatistics | genotype/src/main/java/org/campagnelab/dl/genotype/performance/StatsAccumulator.java:155-210 | Success exactly when every name is recognised. It returns one value per name, in order, each being the estimate that name selects. Otherwise it fails with the first unrecognised name. |
| Performance.StatsAccumulator.constructor | genotype/src/main/java/org/campagnelab/dl/genotype/performance/StatsAccumulator.java:12-34 | A new accumulator has every counter and the expected-variant count at zero, and its history is empty. |
| Performance.StatsAccumulator.InitializeStats | genotype/src/main/java/org/campagnelab/dl/genotype/performance/StatsAccumulator.java:36-56 | Every counter is reset to zero and the history restarts. `numVariantsExpected` is kept. |
| Performance.StatsAccumulator.Observe | genotype/src/main/java/org/campagnelab/dl/genotype/performance/StatsAccumulator.java:58-60 | The one-argument `observe` is the three-argument one with the prediction's `isVariant` passed for both flags. |
| Performance.StatsAccumulator.ObserveWith | genotype/src/main/java/org/campagnelab/dl/genotype/performance/StatsAccumulator.java:62-133 | The counters become `Step` of the old counters, so the invariant is kept. `numProcessed` advances by one and `numVariantsExpected` is unchanged. The assertion closing `observe` holds on the counts and on the `int`s. |
| Performance.CountConcordance | genotype/src/main/java/org/campagnelab/dl/genotype/performance/StatsAccumulator.java:64-67 | True-or-predicted advances exactly for a true or predicted variant. Concordant advances exactly when, in addition, the prediction is correct. |
| Performance.CountConfusion | genotype/src/main/java/org/campagnelab/dl/genotype/performance/StatsAccumulator.java:69-83 | `numCorrect` advances when correct. Exactly one of TP/TN/FN/FP advances, chosen by correctness and the true-variant flag. |
| Performance.CountTypeAccuracy | genotype/src/main/java/org/campagnelab/dl/genotype/performance/StatsAccumulator.java:85-103 | A variant call counts as an indel or as a SNP, and as correct when it is correct. Any other call changes nothing. |
| Performance.CountIndelConfusion | genotype/src/main/java/org/campagnelab/dl/genotype/performance/StatsAccumulator.java:105-115 | A true and predicted indel is a TP when the genotypes match and an FN otherwise. A predicted-only indel is an FP and a true-only indel is an FN. |
| Performance.CountSnpConfusion | genotype/src/main/java/org/campagnelab/dl/genotype/performance/StatsAccumulator.java:117-127 | The same classification for SNPs. |
| Performance.BlocksMakeStep | genotype/src/main/java/org/campagnelab/dl/genotype/performance/StatsAccumulator.java:62-133 | The five blocks of `observe`, run in order after `numProcessed++` and followed by the `numVariants` update, make exactly one `Step`. |
| Performance.StatsAccumulator.SetNumVariantsExpected | genotype/src/main/java/org/campagnelab/dl/genotype/performance/StatsAccumulator.java:241-243 | Only the expected-variant count changes. |
| Performance.StatsAccumulator.VariantsExpected | genotype/src/main/java/org/campagnelab/dl/genotype/performance/StatsAccumulator.java:140 | The recall denominator is the larger of `TP + FN` (as an `int` sum) and the expected count: at least each of them, and equal to one of them. |
| Performance.StatsAccumulator.CountersConsistent | genotype/src/main/java/org/campagnelab/dl/genotype/performance/StatsAccumulator.java:63-132 | The counter relations hold on the live counters, `numProcessed` is the number of observations, and no counter exceeds it. While at most 2^31 − 1 observations were made, no counter has wrapped: every Java `int` is its count, so every relation holds on the `int`s as well. |
| Performance.StatsAccumulator.VariantsExpectedCoversTruePositives | genotype/src/main/java/org/campagnelab/dl/genotype/performance/StatsAccumulator.java:140 | While no counter has wrapped, `variantsExpected >= numTruePositive`. |
| Performance.ObservedVariantsCoverTruePositives | genotype/src/main/java/org/campagnelab/dl/genotype/performance/StatsAccumulator.java:140 | On consistent counters below 2^31, the `int` sum `TP + FN` is at least `TP`. |
| Tools.Upper | genotype/src/main/java/org/campagnelab/dl/genotype/tools/AddTrueGenotypes.java:96 | `toUpperCase` on ASCII: the length is kept, no lower-case letter is left, each lower-case letter moves to its capital, and every other character is kept. |
| Tools.ReplaceBar | genotype/src/main/java/org/campagnelab/dl/genotype/tools/AddTrueGenotypes.java:112 | `replace('|', '/')`: the length is kept, no bar is left, each bar becomes a slash, and every other character is kept. |
| Tools.UpperIdempotent | genotype/src/main/java/org/campagnelab/dl/genotype/tools/AddTrueGenotypes.java:96 | Upper-casing an upper-cased genotype changes nothing. |
| Tools.UpperReplaceBarCommute | genotype/src/main/java/org/campagnelab/dl/genotype/tools/AddTrueGenotypes.java:112 | Replacing bars and upper-casing commute. |
| Tools.SplitEmptyRegex | genotype/src/main/java/org/campagnelab/dl/genotype/tools/AddTrueGenotypes.java:97 | Splitting on the empty-alternation pattern gives one one-character piece per character, or `[""]` for the empty string. |
| Tools.SplitEmptyRegexJoins | genotype/src/main/java/org/campagnelab/dl/genotype/tools/AddTrueGenotypes.java:97 | Joining the pieces gives the genotype back. |
| Tools.Choose | genotype/src/main/java/org/campagnelab/dl/genotype/tools/AddTrueGenotypes.java:87-109 | There is at least one genotype piece. The record is a variant exactly when it is mapped, and is skipped exactly when it is unmapped and its draw exceeds the sampling rate. A mapped record takes the map's genotype, upper-cased; an unmapped one takes ref, bar, ref with the pieces upper-cased ref, `null`, upper-cased ref. |
| Tools.IsCalled | genotype/src/main/java/org/campagnelab/dl/genotype/tools/AddTrueGenotypes.java:116 | A count is called exactly when its allele equals piece 0 or piece 2. Piece 2 is read only when piece 0 differs. Reading past the end is an error. |
| Tools.CalledCounts | genotype/src/main/java/org/campagnelab/dl/genotype/tools/AddTrueGenotypes.java:114-119 | Success exactly when no count reads out of range. Then the counts keep their number and every field but `isCalled`, which is set exactly when the allele is piece 0 or piece 2. |
| Tools.MarkCalled | genotype/src/main/java/org/campagnelab/dl/genotype/tools/AddTrueGenotypes.java:114-119 | The counts loop computes `CalledCounts`. |
| Tools.Finish | genotype/src/main/java/org/campagnelab/dl/genotype/tools/AddTrueGenotypes.java:110-124 | Skipped exactly when the choice says skip. Not skipped with the sample index out of range is that exception. A written record stores the genotype with slashes, upper-cased, has as many samples as before, and its chosen sample carries the choice's variant flag. |
| Tools.Label | genotype/src/main/java/org/campagnelab/dl/genotype/tools/AddTrueGenotypes.java:87-124 | A record is skipped exactly when it is unmapped and its draw exceeds the sampling rate. A written record's chosen sample is marked variant exactly when the record is mapped. |
| Tools.MappedIsLabelledVariant | genotype/src/main/java/org/campagnelab/dl/genotype/tools/AddTrueGenotypes.java:93-99 | A mapped record is never skipped and is a variant. When written, its stored genotype is the map's genotype upper-cased with bars replaced, and its sample is marked variant. |
| Tools.UnmappedIsLabelledReference | genotype/src/main/java/org/campagnelab/dl/genotype/tools/AddTrueGenotypes.java:100-112 | An unmapped record is not a variant. It is skipped exactly when the draw exceeds the sampling rate. When written, it stores ref/ref upper-cased and its sample is marked non-variant. |
| Tools.WrittenChangesOnlyLabels | genotype/src/main/java/org/campagnelab/dl/genotype/tools/AddTrueGenotypes.java:110-124 | A written record differs only in its genotype and its chosen sample, and the other samples are unchanged. In that sample the counts keep their number and every field but `isCalled`. `isCalled` holds exactly when the allele is piece 0 or piece 2. |
| Tools.LabelFails | genotype/src/main/java/org/campagnelab/dl/genotype/tools/AddTrueGenotypes.java:113-118 | A record that is not skipped raises an exception exactly when the sample index is out of range, or when some allele differs from piece 0 and there is no piece 2. |
| Tools.MappedPiecesAreSplit | genotype/src/main/java/org/campagnelab/dl/genotype/tools/AddTrueGenotypes.java:93-97 | For a mapped record, the genotype pieces are exactly the `split("|")` of the upper-cased map genotype, each wrapped as a non-null entry. |
| Tools.MappedPiecesAreCharacters | genotype/src/main/java/org/campagnelab/dl/genotype/tools/AddTrueGenotypes.java:97 | For a mapped genotype of three or more characters, pieces 0 and 2 are its first and third characters. |
| Tools.MultiBaseAllelesAreSplit | genotype/src/main/java/org/campagnelab/dl/genotype/tools/AddTrueGenotypes.java:97 | For the genotype "AT", bar, "A", the pieces compared are "A" and the bar: "AT" is not called and "A" is. |
| Tools.Advance | genotype/src/main/java/org/campagnelab/dl/genotype/tools/AddTrueGenotypes.java:79-126 | Once an exception has ended the run, one more record changes nothing. |
| Tools.AdvanceGrows | genotype/src/main/java/org/campagnelab/dl/genotype/tools/AddTrueGenotypes.java:79-126 | One step only appends to the written records, at most one record, which `recordsLabeled` counts. A record reached either adds a variant or draws a value, and unless it raises an exception it is either skipped or labelled. |
| Tools.Run | genotype/src/main/java/org/campagnelab/dl/genotype/tools/AddTrueGenotypes.java:79-126 | `recordsLabeled` is the number of records written, and variants added plus draws is at most the number of records. |
| Tools.RunCounts | genotype/src/main/java/org/campagnelab/dl/genotype/tools/AddTrueGenotypes.java:79-126 | When no exception ends the run, every record was either mapped or drawn for, and every record was either skipped or labelled. |
| Tools.RunWrittenPrefix | genotype/src/main/java/org/campagnelab/dl/genotype/tools/AddTrueGenotypes.java:79-126 | What the loop writes for a prefix of the records begins what it writes for all of them. |
| Tools.RunWritesOnlyLabels | genotype/src/main/java/org/campagnelab/dl/genotype/tools/AddTrueGenotypes.java:79-126 | Every record written is the label of some record `k` reached before any exception, labelled with the draws made before `k`. |
| Tools.RunWritesEveryLabel | genotype/src/main/java/org/campagnelab/dl/genotype/tools/AddTrueGenotypes.java:79-126 | When a record reached before any exception is labelled, its label is among the records written. |
| Tools.RunWritesLabels | genotype/src/main/java/org/campagnelab/dl/genotype/tools/AddTrueGenotypes.java:79-126 | A record is written exactly when it is the label of a record reached before any exception, taken at the draws `Run` made before that record. |
| Tools.FailureIsFinal | genotype/src/main/java/org/campagnelab/dl/genotype/tools/AddTrueGenotypes.java:79-132 | An uncaught exception ends the loop: later records change nothing. |
| Tools.FailureEndsRun | genotype/src/main/java/org/campagnelab/dl/genotype/tools/AddTrueGenotypes.java:79-132 | An exception on record `k` decides the whole run: the run over all records is the run up to and including `k`. |
| Tools.AddTrueGenotypes.constructor | genotype/src/main/java/org/campagnelab/dl/genotype/tools/AddTrueGenotypes.java:31 | `numVariantsAdded` starts at zero. |
| Tools.AddTrueGenotypes.LabelRecord | genotype/src/main/java/org/campagnelab/dl/genotype/tools/AddTrueGenotypes.java:80-124 | The loop body gives `Label` of the record. It adds one to `numVariantsAdded` exactly when the record is mapped. |
| Tools.AddTrueGenotypes.Execute | genotype/src/main/java/org/campagnelab/dl/genotype/tools/AddTrueGenotypes.java:77-126 | The loop writes `Run`'s records and returns `Run`'s `recordsLabeled` and exception. `numVariantsAdded` grows by `Run`'s variants added. |
| Prediction.TimeSeriesPrediction.constructor | framework/src/main/java/org/campagnelab/dl/framework/domains/prediction/TimeSeriesPrediction.java:12-14 | A new prediction has neither array set. |
| Prediction.TimeSeriesPrediction.SetTrueLabels | framework/src/main/java/org/campagnelab/dl/framework/domains/prediction/TimeSeriesPrediction.java:16-22 | The length check, a Java `assert`, is a precondition for the intended use. The setter stores the array, leaves the predicted labels alone, keeps the equal-length invariant, and returns the object itself. |
| Prediction.TimeSeriesPrediction.SetPredictedLabels | framework/src/main/java/org/campagnelab/dl/framework/domains/prediction/TimeSeriesPrediction.java:35-41 | The mirror image for predicted labels. |
| Prediction.TimeSeriesPrediction.TrueLabels | framework/src/main/java/org/campagnelab/dl/framework/domains/prediction/TimeSeriesPrediction.java:54-56 | Returns the stored true-label array itself. |
| Prediction.TimeSeriesPrediction.PredictedLabels | framework/src/main/java/org/campagnelab/dl/framework/domains/prediction/TimeSeriesPrediction.java:58-60 | Returns the stored predicted-label array itself. |

## Left out

- The ratio metrics of `createOutputStatistics()` are left out: accuracy, recall, precision, F1 and their indel and SNP variants. They are floating-point divisions, NaN on zero denominators. `SelectStatistics` takes the fourteen estimates as a parameter.
- `reportStatistics` is left out. It only prints.
- Performance.SelectStatistics: takes estimate 4, `numVariants` widened to `double`, as a parameter like the ratios. The model does not tie it to `counters.numVariants`.
- Performance.SelectStatistics: does not model a `null` metric name, on which the Java `switch` throws `NullPointerException`. Dafny strings are never null.
- The `GenotypePrediction` predicates and `GenotypeHelper.matchingGenotypes` are left out. Their code is not part of this model, so they are uninterpreted booleans.
- Performance.StatsAccumulator: the sixteen counters other than `numVariants`, `concordantVariants` and `numTrueOrPredictedVariants` are package-private in Java. Other classes of the package can assign them directly and break `Valid()`. The model only covers changes made through `initializeStats` and `observe`.
- The nineteen counter fields are grouped into one record, `counters`. Each record field stands for the Java field of the same name; `numVariantsExpected` stays a separate field.
- Performance.StatsAccumulator.CountersConsistent: the relations on the `int`s are proved only while at most 2^31 − 1 observations were made.
- Performance.StatsAccumulator.ObserveWith: the counters are unbounded counts, and a Java `int` reads as `Wrap` of its count. The counter relations on the `int`s are proved only while fewer than 2^31 observations were made. Past that, the Java counters wrap and the relations between them need not hold.
- The Java `assert` that closes `observe` is not a check in the model: it is proved to hold (`ObserveWith`, `VariantSum`).
- Prediction.TimeSeriesPrediction.SetTrueLabels: the length `assert` is modelled as a precondition for the intended use. With assertions disabled, the Java default, the setter checks nothing and accepts an array of any length.
- Prediction.TimeSeriesPrediction.SetPredictedLabels: the same as `SetTrueLabels`.
- Prediction.TimeSeriesPrediction: the two array fields are `public` in Java, so other code can assign them directly and break the equal-length invariant. The model only covers changes made through the setters.
- These parts of `AddTrueGenotypes` are left out as I/O or framework plumbing:
  - loading the genome cache, the genotype map and the records;
  - writing the output file;
  - progress logging and printing.

  The genome, the map, the random values and the arguments are parameters (`Tools.Env`). The records written are returned as a sequence.
- Tools.AddTrueGenotypes.Execute: `numVariantsAdded` and `recordsLabeled` are unbounded counts. The Java `int`s would wrap after 2^31 − 1 records.
- Tools.Upper: models `toUpperCase` on ASCII letters only. Java's locale-dependent Unicode upper-casing, which can change a string's length, is out of scope.
- `XorShift1024StarRandom` is left out. `nextFloat` is the n-th value drawn, a real compared with the sampling rate, so there is no floating-point rounding.
- Tools.Choose: the reference base is a total function of (reference index, position). A genome lookup that fails is not modelled.
- The protobuf records keep only the fields labelling reads or writes. `BaseInformation`, `SampleInfo` and `CountInfo` each carry a stand-in `otherFields` for the rest, which labelling copies unchanged. The builders' copy-on-write is modelled as record updates.
- The `INDArray` setter overloads and `getIntArgMaxArray` of `TimeSeriesPrediction` are left out. They are Nd4j tensor operations.
- `Predict.java`, `MetaDataInterpreter.java` and `IsMutatedPrediction.java` are not part of this model. They are I/O, framework calls, and reads of external classes.
