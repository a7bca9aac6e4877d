/**
 * The streaming genotype-statistics accumulator: a confusion matrix kept as Java `int`
 * counters, updated once per prediction under several overlapping classifications
 * (variant / non-variant, concordance, indel / SNP accuracy, indel / SNP confusion).
 */
module Performance {
  import opened JavaInt
  import opened Wrappers

  /**
   * What `observe` reads from a genotype prediction. The predicates of the prediction and
   * the result of comparing its true and predicted genotypes are taken as given.
   */
  datatype GenotypePrediction = GenotypePrediction(
    isCorrect: bool,
    isVariant: bool,
    isIndel: bool,
    isPredictedIndel: bool,
    isSnp: bool,
    isPredictedSnp: bool,
    genotypesMatch: bool)

  /** One call of the three-argument `observe`. */
  datatype Observation = Observation(pred: GenotypePrediction, isTrueVariant: bool, isPredictedVariant: bool)

  /** The accumulator's counters as unbounded naturals. */
  datatype Tallies = Tallies(
    numCorrect: nat,
    numProcessed: nat,
    numTruePositive: nat,
    numTrueNegative: nat,
    numFalsePositive: nat,
    numFalseNegative: nat,
    numIndelsCorrect: nat,
    numSnpsCorrect: nat,
    numIndelsProcessed: nat,
    numSnpsProcessed: nat,
    numIndelsTruePositive: nat,
    numIndelsFalsePositive: nat,
    numIndelsFalseNegative: nat,
    numSnpsTruePositive: nat,
    numSnpsFalsePositive: nat,
    numSnpsFalseNegative: nat,
    numVariants: nat,
    concordantVariants: nat,
    numTrueOrPredictedVariants: nat)

  const NoTallies := Tallies(0, 0, 0, 0, 0, 0, 0, 0, 0, 0, 0, 0, 0, 0, 0, 0, 0, 0, 0)

  /**
   * The counters after one more observation, each counter advanced by one exactly when
   * the observation belongs to the class that counter counts. `StepCounts` states what this
   * means; it is a lemma rather than a postcondition so that the many proofs that unfold
   * `Step` stay small.
   */
  function Step(t: Tallies, o: Observation): Tallies
  {
    var p := o.pred;
    var either := o.isPredictedVariant || o.isTrueVariant;
    t.(
      numProcessed := t.numProcessed + 1,
      numTrueOrPredictedVariants := t.numTrueOrPredictedVariants + Ind(either),
      concordantVariants := t.concordantVariants + Ind(either && p.isCorrect),
      numCorrect := t.numCorrect + Ind(p.isCorrect),
      numTruePositive := t.numTruePositive + Ind(p.isCorrect && o.isTrueVariant),
      numTrueNegative := t.numTrueNegative + Ind(p.isCorrect && !o.isTrueVariant),
      numFalseNegative := t.numFalseNegative + Ind(!p.isCorrect && o.isTrueVariant),
      numFalsePositive := t.numFalsePositive + Ind(!p.isCorrect && !o.isTrueVariant),
      numIndelsProcessed := t.numIndelsProcessed + Ind(p.isVariant && p.isIndel),
      numIndelsCorrect := t.numIndelsCorrect + Ind(p.isVariant && p.isIndel && p.isCorrect),
      numSnpsProcessed := t.numSnpsProcessed + Ind(p.isVariant && !p.isIndel),
      numSnpsCorrect := t.numSnpsCorrect + Ind(p.isVariant && !p.isIndel && p.isCorrect),
      numIndelsTruePositive := t.numIndelsTruePositive + Ind(p.isIndel && p.isPredictedIndel && p.genotypesMatch),
      numIndelsFalseNegative := t.numIndelsFalseNegative + Ind(p.isIndel && !(p.isPredictedIndel && p.genotypesMatch)),
      numIndelsFalsePositive := t.numIndelsFalsePositive + Ind(p.isPredictedIndel && !p.isIndel),
      numSnpsTruePositive := t.numSnpsTruePositive + Ind(p.isSnp && p.isPredictedSnp && p.genotypesMatch),
      numSnpsFalseNegative := t.numSnpsFalseNegative + Ind(p.isSnp && !(p.isPredictedSnp && p.genotypesMatch)),
      numSnpsFalsePositive := t.numSnpsFalsePositive + Ind(p.isPredictedSnp && !p.isSnp),
      numVariants := t.numVariants + Ind(o.isTrueVariant))
  }

  /**
   * What one observation does to the counters: `numProcessed` advances, exactly one of the
   * four confusion cells advances, one indel (SNP) confusion cell advances exactly when the
   * site is a true or a predicted indel (SNP), and a variant call is counted as an indel or
   * as a SNP.
   */
  lemma StepCounts(t: Tallies, o: Observation)
    ensures Step(t, o).numProcessed == t.numProcessed + 1
    // exactly one of the four confusion cells advances
    ensures Step(t, o).numTruePositive >= t.numTruePositive && Step(t, o).numTrueNegative >= t.numTrueNegative
    ensures Step(t, o).numFalsePositive >= t.numFalsePositive && Step(t, o).numFalseNegative >= t.numFalseNegative
    ensures (Step(t, o).numTruePositive - t.numTruePositive) + (Step(t, o).numTrueNegative - t.numTrueNegative)
          + (Step(t, o).numFalsePositive - t.numFalsePositive) + (Step(t, o).numFalseNegative - t.numFalseNegative) == 1
    // at most one indel confusion cell, and none when the site is neither a true nor a predicted indel
    ensures (Step(t, o).numIndelsTruePositive - t.numIndelsTruePositive) + (Step(t, o).numIndelsFalsePositive - t.numIndelsFalsePositive)
          + (Step(t, o).numIndelsFalseNegative - t.numIndelsFalseNegative)
            == (if o.pred.isIndel || o.pred.isPredictedIndel then 1 else 0)
    ensures Step(t, o).numIndelsTruePositive >= t.numIndelsTruePositive && Step(t, o).numIndelsFalsePositive >= t.numIndelsFalsePositive
    ensures Step(t, o).numIndelsFalseNegative >= t.numIndelsFalseNegative
    // the same for SNPs
    ensures (Step(t, o).numSnpsTruePositive - t.numSnpsTruePositive) + (Step(t, o).numSnpsFalsePositive - t.numSnpsFalsePositive)
          + (Step(t, o).numSnpsFalseNegative - t.numSnpsFalseNegative)
            == (if o.pred.isSnp || o.pred.isPredictedSnp then 1 else 0)
    ensures Step(t, o).numSnpsTruePositive >= t.numSnpsTruePositive && Step(t, o).numSnpsFalsePositive >= t.numSnpsFalsePositive
    ensures Step(t, o).numSnpsFalseNegative >= t.numSnpsFalseNegative
    // a variant call is either an indel or a SNP, and only variant calls are counted there
    ensures (Step(t, o).numIndelsProcessed - t.numIndelsProcessed) + (Step(t, o).numSnpsProcessed - t.numSnpsProcessed)
            == (if o.pred.isVariant then 1 else 0)
  {
  }

  /** The counters, unbounded, after the observations `h` since the last reset. */
  function Tally(h: seq<Observation>): Tallies
    decreases |h|
  {
    if h == [] then NoTallies else Step(Tally(h[..|h| - 1]), h[|h| - 1])
  }

  /** One more observation advances the tally by one step. */
  lemma TallyAppend(h: seq<Observation>, o: Observation)
    ensures Tally(h + [o]) == Step(Tally(h), o)
  {
    assert (h + [o])[..|h|] == h;
  }

  /**
   * The check that closes observe holds on consistent counters: the variant count is the true
   * positives plus the false negatives, on the counts and on the Java `int`s.
   */
  lemma VariantSum(t: Tallies)
    requires Consistent(t)
    ensures t.numVariants == t.numTruePositive + t.numFalseNegative
    ensures Wrap(t.numVariants) == Add(Wrap(t.numTruePositive), Wrap(t.numFalseNegative))
  {
    AddWrap(t.numTruePositive, t.numFalseNegative);
  }

  /** After an observation the variant count is the true positives plus the false negatives, also as Java `int`s. */
  lemma TallyAppendVariants(h: seq<Observation>, o: Observation, t: Tallies)
    requires t == Step(Tally(h), o)
    ensures t == Tally(h + [o])
    ensures t.numVariants == t.numTruePositive + t.numFalseNegative
    ensures Wrap(t.numVariants) == Add(Wrap(t.numTruePositive), Wrap(t.numFalseNegative))
  {
    TallyAppend(h, o);
    TallyConsistent(h);
    StepPreservesConsistent(Tally(h), o);
    VariantSum(t);
  }

  /** The relations among the counters that hold after any sequence of observations. */
  ghost predicate Consistent(t: Tallies) {
    && t.numTruePositive + t.numTrueNegative + t.numFalsePositive + t.numFalseNegative == t.numProcessed
    && t.numCorrect == t.numTruePositive + t.numTrueNegative
    && t.numVariants == t.numTruePositive + t.numFalseNegative
    && t.concordantVariants <= t.numTrueOrPredictedVariants <= t.numProcessed
    && t.numIndelsCorrect <= t.numIndelsProcessed
    && t.numSnpsCorrect <= t.numSnpsProcessed
    && t.numIndelsProcessed + t.numSnpsProcessed <= t.numProcessed
  }

  lemma StepPreservesConsistent(t: Tallies, o: Observation)
    requires Consistent(t)
    ensures Consistent(Step(t, o))
  {
  }

  /** The counter relations hold after every sequence of observations. */
  lemma {:induction false} TallyConsistent(h: seq<Observation>)
    ensures Consistent(Tally(h))
  {
    if h != [] {
      TallyConsistent(h[..|h| - 1]);
      StepPreservesConsistent(Tally(h[..|h| - 1]), h[|h| - 1]);
    }
  }

  /** `numProcessed` counts the observations. */
  lemma {:induction false} TallyProcessed(h: seq<Observation>)
    ensures Tally(h).numProcessed == |h|
  {
    if h != [] {
      TallyProcessed(h[..|h| - 1]);
    }
  }

  /** Every counter is at most `n`. */
  ghost predicate CountersAtMost(t: Tallies, n: nat) {
    && t.numCorrect <= n && t.numProcessed <= n
    && t.numTruePositive <= n && t.numTrueNegative <= n
    && t.numFalsePositive <= n && t.numFalseNegative <= n
    && t.numIndelsCorrect <= n && t.numSnpsCorrect <= n
    && t.numIndelsProcessed <= n && t.numSnpsProcessed <= n
    && t.numIndelsTruePositive <= n && t.numIndelsFalsePositive <= n && t.numIndelsFalseNegative <= n
    && t.numSnpsTruePositive <= n && t.numSnpsFalsePositive <= n && t.numSnpsFalseNegative <= n
    && t.numVariants <= n && t.concordantVariants <= n && t.numTrueOrPredictedVariants <= n
  }

  /** Every counter of `u` is the same counter of `t` or one more. */
  ghost predicate AdvancedByAtMostOne(t: Tallies, u: Tallies) {
    && t.numCorrect <= u.numCorrect <= t.numCorrect + 1
    && t.numProcessed <= u.numProcessed <= t.numProcessed + 1
    && t.numTruePositive <= u.numTruePositive <= t.numTruePositive + 1
    && t.numTrueNegative <= u.numTrueNegative <= t.numTrueNegative + 1
    && t.numFalsePositive <= u.numFalsePositive <= t.numFalsePositive + 1
    && t.numFalseNegative <= u.numFalseNegative <= t.numFalseNegative + 1
    && t.numIndelsCorrect <= u.numIndelsCorrect <= t.numIndelsCorrect + 1
    && t.numSnpsCorrect <= u.numSnpsCorrect <= t.numSnpsCorrect + 1
    && t.numIndelsProcessed <= u.numIndelsProcessed <= t.numIndelsProcessed + 1
    && t.numSnpsProcessed <= u.numSnpsProcessed <= t.numSnpsProcessed + 1
    && t.numIndelsTruePositive <= u.numIndelsTruePositive <= t.numIndelsTruePositive + 1
    && t.numIndelsFalsePositive <= u.numIndelsFalsePositive <= t.numIndelsFalsePositive + 1
    && t.numIndelsFalseNegative <= u.numIndelsFalseNegative <= t.numIndelsFalseNegative + 1
    && t.numSnpsTruePositive <= u.numSnpsTruePositive <= t.numSnpsTruePositive + 1
    && t.numSnpsFalsePositive <= u.numSnpsFalsePositive <= t.numSnpsFalsePositive + 1
    && t.numSnpsFalseNegative <= u.numSnpsFalseNegative <= t.numSnpsFalseNegative + 1
    && t.numVariants <= u.numVariants <= t.numVariants + 1
    && t.concordantVariants <= u.concordantVariants <= t.concordantVariants + 1
    && t.numTrueOrPredictedVariants <= u.numTrueOrPredictedVariants <= t.numTrueOrPredictedVariants + 1
  }

  /** An observation never decreases a counter and advances each counter by at most one. */
  lemma StepAdvancesByAtMostOne(t: Tallies, o: Observation)
    ensures AdvancedByAtMostOne(t, Step(t, o))
  {
  }

  /** Counters bounded by `n` are bounded by `n + 1` after one more observation. */
  lemma StepAtMost(t: Tallies, o: Observation, n: nat)
    requires CountersAtMost(t, n)
    ensures CountersAtMost(Step(t, o), n + 1)
  {
    StepAdvancesByAtMostOne(t, o);
  }

  /** No counter exceeds the number of observations. */
  lemma {:induction false} TallyAtMostLength(h: seq<Observation>)
    ensures CountersAtMost(Tally(h), |h|)
  {
    if h != [] {
      TallyAtMostLength(h[..|h| - 1]);
      StepAtMost(Tally(h[..|h| - 1]), h[|h| - 1], |h| - 1);
    }
  }

  /** Every counter's Java `int` is the count itself. */
  ghost predicate NoCounterWrapped(t: Tallies) {
    && Wrap(t.numCorrect) == t.numCorrect && Wrap(t.numProcessed) == t.numProcessed
    && Wrap(t.numTruePositive) == t.numTruePositive && Wrap(t.numTrueNegative) == t.numTrueNegative
    && Wrap(t.numFalsePositive) == t.numFalsePositive && Wrap(t.numFalseNegative) == t.numFalseNegative
    && Wrap(t.numIndelsCorrect) == t.numIndelsCorrect && Wrap(t.numSnpsCorrect) == t.numSnpsCorrect
    && Wrap(t.numIndelsProcessed) == t.numIndelsProcessed && Wrap(t.numSnpsProcessed) == t.numSnpsProcessed
    && Wrap(t.numIndelsTruePositive) == t.numIndelsTruePositive
    && Wrap(t.numIndelsFalsePositive) == t.numIndelsFalsePositive
    && Wrap(t.numIndelsFalseNegative) == t.numIndelsFalseNegative
    && Wrap(t.numSnpsTruePositive) == t.numSnpsTruePositive
    && Wrap(t.numSnpsFalsePositive) == t.numSnpsFalsePositive
    && Wrap(t.numSnpsFalseNegative) == t.numSnpsFalseNegative
    && Wrap(t.numVariants) == t.numVariants && Wrap(t.concordantVariants) == t.concordantVariants
    && Wrap(t.numTrueOrPredictedVariants) == t.numTrueOrPredictedVariants
  }

  /** Counters that fit in a Java `int` are read back unchanged. */
  lemma FitsNoWrap(t: Tallies)
    requires CountersAtMost(t, MaxValue)
    ensures NoCounterWrapped(t)
  {
  }

  /** The number of observations whose prediction is a variant. */
  function VariantPredictions(h: seq<Observation>): (n: nat)
    ensures n <= |h|
    decreases |h|
  {
    if h == [] then 0 else VariantPredictions(h[..|h| - 1]) + Ind(h[|h| - 1].pred.isVariant)
  }

  /** Indels and SNPs processed together count exactly the variant predictions. */
  lemma {:induction false} TallyVariantSplit(h: seq<Observation>)
    ensures Tally(h).numIndelsProcessed + Tally(h).numSnpsProcessed == VariantPredictions(h)
  {
    if h != [] {
      TallyVariantSplit(h[..|h| - 1]);
    }
  }

  /** createOutputHeader: the names of the fourteen estimates, in the order they are produced. */
  function OutputHeader(): (h: seq<string>)
    ensures |h| == 14
    ensures forall i, j :: 0 <= i < j < |h| ==> h[i] != h[j]
  {
    ["Accuracy", "Recall", "Precision", "F1", "NumVariants", "Concordance",
     "Accuracy_Indels", "Recall_Indels", "Precision_Indels", "F1_Indels",
     "Accuracy_SNPs", "Recall_SNPs", "Precision_SNPs", "F1_SNPs"]
  }

  /** Index of the F1 estimate. */
  const F1Index: nat := 3

  /** The switch of createOutputStatistics(String...): the index a metric name selects, if any. */
  function MetricIndex(name: string): (r: Option<nat>)
    ensures r.Some? ==> r.value < |OutputHeader()| && OutputHeader()[r.value] == name
    ensures r.None? ==> name !in OutputHeader()
  {
    if name == "Accuracy" then Some(0)
    else if name == "Recall" then Some(1)
    else if name == "Precision" then Some(2)
    else if name == "F1" then Some(3)
    else if name == "NumVariants" then Some(4)
    else if name == "Concordance" then Some(5)
    else if name == "Accuracy_Indels" then Some(6)
    else if name == "Recall_Indels" then Some(7)
    else if name == "Precision_Indels" then Some(8)
    else if name == "F1_Indels" then Some(9)
    else if name == "Accuracy_SNPs" then Some(10)
    else if name == "Recall_SNPs" then Some(11)
    else if name == "Precision_SNPs" then Some(12)
    else if name == "F1_SNPs" then Some(13)
    else None
  }

  /** The header and the switch agree: header name j selects index j, and only header names are recognised. */
  lemma HeaderSelectsItsIndex(name: string, j: nat)
    ensures j < |OutputHeader()| && OutputHeader()[j] == name <==> MetricIndex(name) == Some(j)
    ensures MetricIndex(name).None? <==> name !in OutputHeader()
    ensures OutputHeader()[F1Index] == "F1"
  {
  }

  /** Without wrap-around, the observed variant count, added as Java `int`s, is at least the true positives. */
  lemma ObservedVariantsCoverTruePositives(t: Tallies)
    requires Consistent(t) && t.numProcessed <= MaxValue
    ensures Add(Wrap(t.numTruePositive), Wrap(t.numFalseNegative)) >= Wrap(t.numTruePositive)
  {
    var tp, fn := t.numTruePositive, t.numFalseNegative;
    assert tp + fn <= MaxValue;
    assert Wrap(tp) == tp && Wrap(fn) == fn;
  }

  datatype MetricError = MetricNotRecognized(name: string)

  /**
   * createOutputStatistics(String...): one estimate per requested name, in order, or the
   * error for the first name that is not recognised. `estimates` is what the no-argument
   * createOutputStatistics returns.
   */
  method SelectStatistics(estimates: seq<real>, metrics: seq<string>) returns (r: Result<seq<real>, MetricError>)
    requires |estimates| == |OutputHeader()|
    ensures r.Success? <==> forall k :: 0 <= k < |metrics| ==> MetricIndex(metrics[k]).Some?
    ensures r.Success? ==> |r.value| == |metrics|
    ensures r.Success? ==> forall k :: 0 <= k < |metrics| ==>
      MetricIndex(metrics[k]).Some? && r.value[k] == estimates[MetricIndex(metrics[k]).value]
    ensures r.Failure? ==> exists k :: 0 <= k < |metrics| && r.error == MetricNotRecognized(metrics[k]) &&
                                       MetricIndex(metrics[k]).None? &&
                                       forall m :: 0 <= m < k ==> MetricIndex(metrics[m]).Some?
  {
    var values := new real[|metrics|];
    var i := 0;
    while i < |metrics|
      invariant 0 <= i <= |metrics|
      invariant forall k :: 0 <= k < i ==>
        MetricIndex(metrics[k]).Some? && MetricIndex(metrics[k]).value < 14 && values[k] == estimates[MetricIndex(metrics[k]).value]
    {
      var j := MetricIndex(metrics[i]);
      if j.None? {
        return Failure(MetricNotRecognized(metrics[i]));
      }
      values[i] := estimates[j.value];
      i := i + 1;
    }
    r := Success(values[..]);
  }

  /** The concordance block of observe: counted when the site is a true or a predicted variant. */
  method CountConcordance(t: Tallies, isCorrect: bool, either: bool) returns (r: Tallies)
    ensures r == AfterConcordance(t, isCorrect, either)
  {
    r := t;
    if either {
      r := r.(numTrueOrPredictedVariants := r.numTrueOrPredictedVariants + 1);
      r := r.(concordantVariants := r.concordantVariants + if isCorrect then 1 else 0);
    }
  }

  /** The variant / non-variant block of observe: exactly one confusion cell advances. */
  method CountConfusion(t: Tallies, isCorrect: bool, isTrueVariant: bool) returns (r: Tallies)
    ensures r == AfterConfusion(t, isCorrect, isTrueVariant)
  {
    r := t;
    if isCorrect {
      r := r.(numCorrect := r.numCorrect + 1);
      if isTrueVariant {
        r := r.(numTruePositive := r.numTruePositive + 1);
      } else {
        r := r.(numTrueNegative := r.numTrueNegative + 1);
      }
    } else {
      if isTrueVariant {
        r := r.(numFalseNegative := r.numFalseNegative + 1);
      } else {
        r := r.(numFalsePositive := r.numFalsePositive + 1);
      }
    }
  }

  /** The per-type accuracy block of observe: a variant call is counted as an indel or as a SNP. */
  method CountTypeAccuracy(t: Tallies, p: GenotypePrediction) returns (r: Tallies)
    ensures r == AfterTypeAccuracy(t, p)
  {
    r := t;
    if p.isVariant {
      if p.isIndel {
        r := r.(numIndelsProcessed := r.numIndelsProcessed + 1);
        if p.isCorrect {
          r := r.(numIndelsCorrect := r.numIndelsCorrect + 1);
        }
      } else {
        r := r.(numSnpsProcessed := r.numSnpsProcessed + 1);
        if p.isCorrect {
          r := r.(numSnpsCorrect := r.numSnpsCorrect + 1);
        }
      }
    }
  }

  /** The indel confusion block of observe. */
  method CountIndelConfusion(t: Tallies, p: GenotypePrediction) returns (r: Tallies)
    ensures r == AfterIndelConfusion(t, p)
  {
    r := t;
    if p.isPredictedIndel && p.isIndel {
      if p.genotypesMatch {
        r := r.(numIndelsTruePositive := r.numIndelsTruePositive + 1);
      } else {
        r := r.(numIndelsFalseNegative := r.numIndelsFalseNegative + 1);
      }
    } else if p.isPredictedIndel && !p.isIndel {
      r := r.(numIndelsFalsePositive := r.numIndelsFalsePositive + 1);
    } else if !p.isPredictedIndel && p.isIndel {
      r := r.(numIndelsFalseNegative := r.numIndelsFalseNegative + 1);
    }
  }

  /** The SNP confusion block of observe. */
  method CountSnpConfusion(t: Tallies, p: GenotypePrediction) returns (r: Tallies)
    ensures r == AfterSnpConfusion(t, p)
  {
    r := t;
    if p.isPredictedSnp && p.isSnp {
      if p.genotypesMatch {
        r := r.(numSnpsTruePositive := r.numSnpsTruePositive + 1);
      } else {
        r := r.(numSnpsFalseNegative := r.numSnpsFalseNegative + 1);
      }
    } else if p.isPredictedSnp && !p.isSnp {
      r := r.(numSnpsFalsePositive := r.numSnpsFalsePositive + 1);
    } else if !p.isPredictedSnp && p.isSnp {
      r := r.(numSnpsFalseNegative := r.numSnpsFalseNegative + 1);
    }
  }

  /** Observe's blocks, run one after another, make one `Step`. */
  lemma BlocksMakeStep(t: Tallies, p: GenotypePrediction, isTrueVariant: bool, isPredictedVariant: bool,
                       c0: Tallies, c1: Tallies, c2: Tallies, c3: Tallies,
                       c4: Tallies, c5: Tallies, c6: Tallies)
    requires c0 == t.(numProcessed := t.numProcessed + 1)
    requires c1 == AfterConcordance(c0, p.isCorrect, isPredictedVariant || isTrueVariant)
    requires c2 == AfterConfusion(c1, p.isCorrect, isTrueVariant)
    requires c3 == AfterTypeAccuracy(c2, p)
    requires c4 == AfterIndelConfusion(c3, p)
    requires c5 == AfterSnpConfusion(c4, p)
    requires c6 == c5.(numVariants := c5.numVariants + Ind(isTrueVariant))
    ensures c6 == Step(t, Observation(p, isTrueVariant, isPredictedVariant))
  {
  }

  // The closed forms of the blocks, as the block methods state them.

  function AfterConcordance(t: Tallies, isCorrect: bool, either: bool): Tallies {
    t.(numTrueOrPredictedVariants := t.numTrueOrPredictedVariants + Ind(either),
       concordantVariants := t.concordantVariants + Ind(either && isCorrect))
  }

  function AfterConfusion(t: Tallies, isCorrect: bool, isTrueVariant: bool): Tallies {
    t.(numCorrect := t.numCorrect + Ind(isCorrect),
       numTruePositive := t.numTruePositive + Ind(isCorrect && isTrueVariant),
       numTrueNegative := t.numTrueNegative + Ind(isCorrect && !isTrueVariant),
       numFalseNegative := t.numFalseNegative + Ind(!isCorrect && isTrueVariant),
       numFalsePositive := t.numFalsePositive + Ind(!isCorrect && !isTrueVariant))
  }

  function AfterTypeAccuracy(t: Tallies, p: GenotypePrediction): Tallies {
    t.(numIndelsProcessed := t.numIndelsProcessed + Ind(p.isVariant && p.isIndel),
       numIndelsCorrect := t.numIndelsCorrect + Ind(p.isVariant && p.isIndel && p.isCorrect),
       numSnpsProcessed := t.numSnpsProcessed + Ind(p.isVariant && !p.isIndel),
       numSnpsCorrect := t.numSnpsCorrect + Ind(p.isVariant && !p.isIndel && p.isCorrect))
  }

  function AfterIndelConfusion(t: Tallies, p: GenotypePrediction): Tallies {
    t.(numIndelsTruePositive := t.numIndelsTruePositive + Ind(p.isIndel && p.isPredictedIndel && p.genotypesMatch),
       numIndelsFalseNegative := t.numIndelsFalseNegative + Ind(p.isIndel && !(p.isPredictedIndel && p.genotypesMatch)),
       numIndelsFalsePositive := t.numIndelsFalsePositive + Ind(p.isPredictedIndel && !p.isIndel))
  }

  function AfterSnpConfusion(t: Tallies, p: GenotypePrediction): Tallies {
    t.(numSnpsTruePositive := t.numSnpsTruePositive + Ind(p.isSnp && p.isPredictedSnp && p.genotypesMatch),
       numSnpsFalseNegative := t.numSnpsFalseNegative + Ind(p.isSnp && !(p.isPredictedSnp && p.genotypesMatch)),
       numSnpsFalsePositive := t.numSnpsFalsePositive + Ind(p.isPredictedSnp && !p.isSnp))
  }

  /**
   * The accumulator. `counters` holds the nineteen counters that initializeStats resets,
   * as unbounded counts; the Java `int` the program reads for a counter is `Wrap` of its
   * count (`IncWrap` and `AddWrap` show that `++` and `+=` on the `int` agree with this).
   * `history` is the observations made since the last reset.
   */
  class StatsAccumulator {
    var counters: Tallies
    var numVariantsExpected: Int32
    ghost var history: seq<Observation>

    /** The counters are the tally of the observations since the last reset. */
    ghost predicate Valid()
      reads this
    {
      counters == Tally(history)
    }

    /** Java zero-initialises every field, including the expected-variant count. */
    constructor ()
      ensures Valid() && history == [] && counters == NoTallies && numVariantsExpected == 0
    {
      counters := NoTallies;
      numVariantsExpected := 0;
      history := [];
    }

    /** initializeStats: every counter back to zero; the expected-variant count is kept. */
    method InitializeStats()
      modifies this
      ensures Valid() && history == [] && counters == NoTallies
      ensures numVariantsExpected == old(numVariantsExpected)
    {
      counters := NoTallies;
      history := [];
    }

    /** observe(fullPred): the prediction's own variant flag stands for both the true and the predicted flag. */
    method Observe(pred: GenotypePrediction)
      requires Valid()
      modifies this
      ensures Valid()
      ensures history == old(history) + [Observation(pred, pred.isVariant, pred.isVariant)]
      ensures counters.numProcessed == old(counters.numProcessed) + 1
      ensures numVariantsExpected == old(numVariantsExpected)
    {
      ObserveWith(pred, pred.isVariant, pred.isVariant);
    }

    /** observe(fullPred, isTrueVariant, isPredictedVariant): one more prediction counted. */
    method ObserveWith(pred: GenotypePrediction, isTrueVariant: bool, isPredictedVariant: bool)
      requires Valid()
      modifies this
      ensures Valid()
      ensures history == old(history) + [Observation(pred, isTrueVariant, isPredictedVariant)]
      ensures counters == Step(old(counters), Observation(pred, isTrueVariant, isPredictedVariant))
      ensures counters.numProcessed == old(counters.numProcessed) + 1
      ensures numVariantsExpected == old(numVariantsExpected)
      // the assertion that closes observe, on the counts and on the Java `int`s
      ensures counters.numVariants == counters.numTruePositive + counters.numFalseNegative
      ensures Wrap(counters.numVariants) == Add(Wrap(counters.numTruePositive), Wrap(counters.numFalseNegative))
    {
      ghost var o := Observation(pred, isTrueVariant, isPredictedVariant);
      var c0 := counters.(numProcessed := counters.numProcessed + 1);
      var c1 := CountConcordance(c0, pred.isCorrect, isPredictedVariant || isTrueVariant);
      var c2 := CountConfusion(c1, pred.isCorrect, isTrueVariant);
      var c3 := CountTypeAccuracy(c2, pred);
      var c4 := CountIndelConfusion(c3, pred);
      var c5 := CountSnpConfusion(c4, pred);
      var c6 := c5.(numVariants := c5.numVariants + Ind(isTrueVariant));
      BlocksMakeStep(counters, pred, isTrueVariant, isPredictedVariant, c0, c1, c2, c3, c4, c5, c6);
      TallyAppendVariants(history, o, c6);
      counters := c6;
      history := history + [o];
    }

    /** setNumVariantsExpected: only the expected-variant count changes. */
    method SetNumVariantsExpected(n: Int32)
      requires Valid()
      modifies this`numVariantsExpected
      ensures Valid() && numVariantsExpected == n
    {
      numVariantsExpected := n;
    }

    /**
     * The recall denominator of createOutputStatistics: the larger of the observed variant
     * count (true positives plus false negatives, added as Java `int`s) and the
     * expected-variant count.
     */
    function VariantsExpected(): (r: Int32)
      reads this
      ensures r >= Add(Wrap(counters.numTruePositive), Wrap(counters.numFalseNegative))
      ensures r >= numVariantsExpected
      ensures r == Add(Wrap(counters.numTruePositive), Wrap(counters.numFalseNegative)) || r == numVariantsExpected
    {
      var observed := Add(Wrap(counters.numTruePositive), Wrap(counters.numFalseNegative));
      if observed >= numVariantsExpected then observed else numVariantsExpected
    }

    /**
     * The counter relations on the counts. While at most 2^31 - 1 observations were made no
     * counter has wrapped, so the same relations hold on the Java `int`s the program reads.
     */
    lemma CountersConsistent()
      requires Valid()
      ensures Consistent(counters)
      ensures counters.numProcessed == |history|
      ensures CountersAtMost(counters, |history|)
      ensures counters.numIndelsProcessed + counters.numSnpsProcessed == VariantPredictions(history)
      ensures |history| <= MaxValue ==> NoCounterWrapped(counters)
    {
      TallyConsistent(history);
      TallyProcessed(history);
      TallyAtMostLength(history);
      TallyVariantSplit(history);
      if |history| <= MaxValue {
        FitsNoWrap(counters);
      }
    }

    /** While no counter has wrapped, the recall denominator is at least the number of true positives. */
    lemma VariantsExpectedCoversTruePositives()
      requires Valid() && |history| <= MaxValue
      ensures VariantsExpected() >= Wrap(counters.numTruePositive)
    {
      CountersConsistent();
      ObservedVariantsCoverTruePositives(counters);
    }
  }
}
