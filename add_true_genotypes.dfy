/**
 * The labelling tool that copies base-information records into a new file, attaching the
 * true genotype from a map of known variants to every mapped record and, for a sampled
 * fraction of the unmapped records, the reference genotype `ref|ref`; each count of the
 * chosen sample is marked called when its allele equals the first or the third entry of
 * `genotypes`.
 *
 * The genotype map, the reference genome and the random draws are parameters (`Env`).
 */
module Tools {
  import opened JavaInt
  import opened Wrappers

  /** A count of a sample: the allele it counts and the flag labelling sets. */
  datatype CountInfo = CountInfo(toSequence: string, isCalled: bool, otherFields: seq<int>)

  /** A sample of a record: its counts, the variant flag labelling sets, and the rest. */
  datatype SampleInfo = SampleInfo(counts: seq<CountInfo>, isVariant: bool, otherFields: seq<int>)

  /** A base-information record, with the fields labelling reads or writes, and the rest. */
  datatype BaseInformation = BaseInformation(
    referenceId: string,
    referenceIndex: int,
    position: int,
    trueGenotype: string,
    samples: seq<SampleInfo>,
    otherFields: seq<int>)

  /** The exceptions the loop body can raise; none of them is caught, so each ends the run. */
  datatype LabelError =
    | SampleIndexOutOfBounds(sampleIndex: int, sampleCount: nat)
    | GenotypeIndexOutOfBounds(index: nat, length: nat)

  /**
   * What the tool reads besides the records: the genotype map (reference id, then zero-based
   * position, to a bar-separated genotype), the reference base at (reference index, position),
   * the n-th value of the random generator, the reference sampling rate, and the sample index.
   */
  datatype Env = Env(
    chMap: map<string, map<int, string>>,
    genome: (int, int) -> char,
    nextFloat: nat -> real,
    referenceSamplingRate: real,
    sampleIndex: int)

  // ----- string helpers -----

  /** Upper case, on ASCII letters. */
  function UpperChar(c: char): char {
    if 'a' <= c <= 'z' then (c as int - 'a' as int + 'A' as int) as char else c
  }

  /** `toUpperCase()` on ASCII: each lower-case letter moves 32 code points down to its capital, nothing else changes. */
  function Upper(s: string): (r: string)
    ensures |r| == |s|
    ensures forall i :: 0 <= i < |s| ==> !('a' <= r[i] <= 'z')
    ensures forall i :: 0 <= i < |s| && 'a' <= s[i] <= 'z' ==> r[i] as int == s[i] as int - 32
    ensures forall i :: 0 <= i < |s| && !('a' <= s[i] <= 'z') ==> r[i] == s[i]
  {
    seq(|s|, i requires 0 <= i < |s| => UpperChar(s[i]))
  }

  /** `replace('|', '/')`: no bar is left, each bar becomes a slash, and every other character is kept. */
  function ReplaceBar(s: string): (r: string)
    ensures |r| == |s|
    ensures '|' !in r
    ensures forall i :: 0 <= i < |s| && s[i] == '|' ==> r[i] == '/'
    ensures forall i :: 0 <= i < |s| && s[i] != '|' ==> r[i] == s[i]
  {
    seq(|s|, i requires 0 <= i < |s| => if s[i] == '|' then '/' else s[i])
  }

  /** Upper-casing twice is upper-casing once. */
  lemma UpperIdempotent(s: string)
    ensures Upper(Upper(s)) == Upper(s)
  {
  }

  /** Replacing bars and upper-casing commute, since neither bar nor slash is a letter. */
  lemma UpperReplaceBarCommute(s: string)
    ensures Upper(ReplaceBar(s)) == ReplaceBar(Upper(s))
  {
  }

  /**
   * `s.split("|")` on Java 8 or later: the pattern is an empty alternation, so it matches the
   * empty string at every position; the leading empty piece is dropped and trailing empty
   * pieces are removed, which leaves one piece per character, or the single piece "" when
   * `s` is empty.
   */
  function SplitEmptyRegex(s: string): (parts: seq<string>)
    ensures |parts| >= 1
    ensures s == [] ==> parts == [""]
    ensures s != [] ==> |parts| == |s| && forall i :: 0 <= i < |s| ==> parts[i] == [s[i]]
  {
    if s == [] then [""] else seq(|s|, i requires 0 <= i < |s| => [s[i]])
  }

  function Concat(parts: seq<string>): string
    decreases |parts|
  {
    if parts == [] then "" else parts[0] + Concat(parts[1..])
  }

  /** Joining the pieces gives the string back. */
  lemma {:induction false} SplitEmptyRegexJoins(s: string)
    ensures Concat(SplitEmptyRegex(s)) == s
    decreases |s|
  {
    if |s| == 1 {
      assert SplitEmptyRegex(s)[1..] == [];
    } else if |s| > 1 {
      assert SplitEmptyRegex(s)[1..] == SplitEmptyRegex(s[1..]);
      SplitEmptyRegexJoins(s[1..]);
      assert s == [s[0]] + s[1..];
    }
  }

  // ----- the genotype of a record -----

  /**
   * What the if/else on the genotype map decides for one record: the genotype string, the
   * genotype pieces (`null` as `None`), the variant flag and the skip decision.
   */
  datatype Choice = Choice(trueGenotype: string, genotypes: seq<Option<string>>, isVariant: bool, skip: bool)

  predicate Mapped(rec: BaseInformation, env: Env) {
    rec.referenceId in env.chMap && rec.position in env.chMap[rec.referenceId]
  }

  function Somes(parts: seq<string>): (r: seq<Option<string>>)
    ensures |r| == |parts| && forall i :: 0 <= i < |parts| ==> r[i] == Some(parts[i])
  {
    seq(|parts|, i requires 0 <= i < |parts| => Some(parts[i]))
  }

  function ReferenceBase(rec: BaseInformation, env: Env): string {
    [env.genome(rec.referenceIndex, rec.position)]
  }

  /**
   * The if/else on the genotype map. `drawIndex` is the number of random values drawn before
   * this record; only an unmapped record draws one. A mapped record is a variant and is never
   * skipped; an unmapped one gets three pieces, the upper-cased reference base, `null` and the
   * base again, and is skipped exactly when its draw exceeds the sampling rate.
   */
  function Choose(rec: BaseInformation, env: Env, drawIndex: nat): (c: Choice)
    ensures |c.genotypes| >= 1
    ensures c.isVariant <==> Mapped(rec, env)
    ensures c.skip <==> !Mapped(rec, env) && env.nextFloat(drawIndex) > env.referenceSamplingRate
    ensures Mapped(rec, env) ==> c.trueGenotype == Upper(env.chMap[rec.referenceId][rec.position])
    ensures !Mapped(rec, env) ==>
              && c.trueGenotype == ReferenceBase(rec, env) + "|" + ReferenceBase(rec, env)
              && c.genotypes == [Some(Upper(ReferenceBase(rec, env))), None, Some(Upper(ReferenceBase(rec, env)))]
  {
    if Mapped(rec, env) then
      var g := Upper(env.chMap[rec.referenceId][rec.position]);
      Choice(g, Somes(SplitEmptyRegex(g)), true, false)
    else
      var base := ReferenceBase(rec, env);
      Choice(base + "|" + base, [Some(Upper(base)), None, Some(Upper(base))], false,
             env.nextFloat(drawIndex) > env.referenceSamplingRate)
  }

  // ----- marking the counts -----

  /**
   * The `isCalled` expression of the counts loop: whether a count for allele `toSequence` is called, reading `genotypes[2]` only
   * when `genotypes[0]` does not match; reading past the end of `genotypes` is an error.
   */
  function IsCalled(toSequence: string, genotypes: seq<Option<string>>): (r: Result<bool, LabelError>)
    ensures r.Success? <==> |genotypes| >= 3 || (|genotypes| >= 1 && genotypes[0] == Some(toSequence))
    ensures r == Success(true) <==>
              || (|genotypes| >= 1 && genotypes[0] == Some(toSequence))
              || (|genotypes| >= 3 && genotypes[2] == Some(toSequence))
    ensures r.Failure? ==> r.error == GenotypeError(genotypes)
  {
    if |genotypes| == 0 then Failure(GenotypeIndexOutOfBounds(0, 0))
    else if genotypes[0] == Some(toSequence) then Success(true)
    else if |genotypes| < 3 then Failure(GenotypeIndexOutOfBounds(2, |genotypes|))
    else Success(genotypes[2] == Some(toSequence))
  }

  /** The out-of-range read the genotype pieces give rise to, whichever count reads them. */
  function GenotypeError(genotypes: seq<Option<string>>): LabelError {
    if |genotypes| == 0 then GenotypeIndexOutOfBounds(0, 0) else GenotypeIndexOutOfBounds(2, |genotypes|)
  }

  /** The counts loop as a value: every count with its called flag set, or the error. */
  function CalledCounts(counts: seq<CountInfo>, genotypes: seq<Option<string>>): (r: Result<seq<CountInfo>, LabelError>)
    ensures r.Success? <==> forall i :: 0 <= i < |counts| ==> IsCalled(counts[i].toSequence, genotypes).Success?
    ensures r.Success? ==> |r.value| == |counts|
    ensures r.Success? ==> forall i :: 0 <= i < |counts| ==>
              r.value[i] == counts[i].(isCalled :=
                || genotypes[0] == Some(counts[i].toSequence)
                || (|genotypes| >= 3 && genotypes[2] == Some(counts[i].toSequence)))
    ensures r.Failure? ==> r.error == GenotypeError(genotypes)
  {
    if forall i :: 0 <= i < |counts| ==> IsCalled(counts[i].toSequence, genotypes).Success? then
      Success(seq(|counts|, i requires 0 <= i < |counts| && IsCalled(counts[i].toSequence, genotypes).Success? =>
        counts[i].(isCalled := IsCalled(counts[i].toSequence, genotypes).value)))
    else
      Failure(GenotypeError(genotypes))
  }

  /** The counts loop: each count in turn gets its called flag, until a read out of range. */
  method MarkCalled(counts: seq<CountInfo>, genotypes: seq<Option<string>>) returns (r: Result<seq<CountInfo>, LabelError>)
    ensures r == CalledCounts(counts, genotypes)
  {
    var built := counts;
    var i := 0;
    while i < |counts|
      invariant 0 <= i <= |counts| && |built| == |counts|
      invariant forall k :: 0 <= k < i ==> IsCalled(counts[k].toSequence, genotypes).Success?
      invariant forall k :: 0 <= k < i ==> built[k] == counts[k].(isCalled := IsCalled(counts[k].toSequence, genotypes).value)
      invariant built[i..] == counts[i..]
    {
      var called := IsCalled(built[i].toSequence, genotypes);
      if called.Failure? {
        return Failure(called.error);
      }
      built := built[i := built[i].(isCalled := called.value)];
      i := i + 1;
    }
    assert built == CalledCounts(counts, genotypes).value;
    return Success(built);
  }

  // ----- one record -----

  datatype Outcome =
    | Skipped
    | Written(record: BaseInformation)
    | Failed(error: LabelError)

  /**
   * The `if (!skip)` block once the genotype is chosen: nothing when the record is skipped,
   * otherwise the labelled record, with the chosen genotype written with slashes, the chosen
   * sample flagged as the choice says and as many samples as before, or the error that ends
   * the run.
   */
  function Finish(rec: BaseInformation, c: Choice, sampleIndex: int): (r: Outcome)
    ensures r.Skipped? <==> c.skip
    ensures !c.skip && !(0 <= sampleIndex < |rec.samples|) ==> r == Failed(SampleIndexOutOfBounds(sampleIndex, |rec.samples|))
    ensures r.Written? ==>
              && 0 <= sampleIndex < |rec.samples|
              && r.record.trueGenotype == Upper(ReplaceBar(c.trueGenotype))
              && |r.record.samples| == |rec.samples|
              && r.record.samples[sampleIndex].isVariant == c.isVariant
  {
    if c.skip then Skipped
    else if !(0 <= sampleIndex < |rec.samples|) then Failed(SampleIndexOutOfBounds(sampleIndex, |rec.samples|))
    else
      var sample := rec.samples[sampleIndex];
      match CalledCounts(sample.counts, c.genotypes)
      case Failure(e) => Failed(e)
      case Success(counts) =>
        Written(rec.(trueGenotype := Upper(ReplaceBar(c.trueGenotype)),
                     samples := rec.samples[sampleIndex := sample.(counts := counts, isVariant := c.isVariant)]))
  }

  /**
   * The body of the loop over records, as a value: a record is skipped exactly when it is
   * unmapped and its draw exceeds the sampling rate, and a written record's sample is flagged
   * a variant exactly when the record is mapped.
   */
  function Label(rec: BaseInformation, env: Env, drawIndex: nat): (r: Outcome)
    ensures r.Skipped? <==> !Mapped(rec, env) && env.nextFloat(drawIndex) > env.referenceSamplingRate
    ensures r.Written? ==>
              && 0 <= env.sampleIndex < |rec.samples| == |r.record.samples|
              && (r.record.samples[env.sampleIndex].isVariant <==> Mapped(rec, env))
  {
    Finish(rec, Choose(rec, env, drawIndex), env.sampleIndex)
  }

  /** A record whose position is in the map is never skipped, and is labelled a variant with the map's genotype. */
  lemma MappedIsLabelledVariant(rec: BaseInformation, env: Env, drawIndex: nat)
    requires Mapped(rec, env)
    ensures !Label(rec, env, drawIndex).Skipped?
    ensures Choose(rec, env, drawIndex).isVariant
    ensures Label(rec, env, drawIndex).Written? ==>
              && Label(rec, env, drawIndex).record.trueGenotype == ReplaceBar(Upper(env.chMap[rec.referenceId][rec.position]))
              && Label(rec, env, drawIndex).record.samples[env.sampleIndex].isVariant
  {
    var g := Upper(env.chMap[rec.referenceId][rec.position]);
    UpperReplaceBarCommute(g);
    UpperIdempotent(g);
  }

  /**
   * A record whose position is not in the map gets the genotype ref/ref, upper-cased, is not a
   * variant, and is skipped exactly when the random draw exceeds the sampling rate.
   */
  lemma UnmappedIsLabelledReference(rec: BaseInformation, env: Env, drawIndex: nat)
    requires !Mapped(rec, env)
    ensures !Choose(rec, env, drawIndex).isVariant
    ensures Label(rec, env, drawIndex).Skipped? <==> env.nextFloat(drawIndex) > env.referenceSamplingRate
    ensures Label(rec, env, drawIndex).Written? ==>
              && Label(rec, env, drawIndex).record.trueGenotype
                 == Upper(ReplaceBar(ReferenceBase(rec, env))) + "/" + Upper(ReplaceBar(ReferenceBase(rec, env)))
              && !Label(rec, env, drawIndex).record.samples[env.sampleIndex].isVariant
  {
    var base := ReferenceBase(rec, env);
    var u := Upper(ReplaceBar(base));
    assert Upper(ReplaceBar(base + "|" + base)) == u + "/" + u;
  }

  /**
   * A labelled record differs from the input only in its true genotype and in the chosen
   * sample, whose counts keep their number and their alleles and change only their called
   * flags, each set exactly when the allele is the first or the third genotype piece.
   */
  lemma {:induction false} WrittenChangesOnlyLabels(rec: BaseInformation, env: Env, drawIndex: nat)
    requires Label(rec, env, drawIndex).Written?
    ensures 0 <= env.sampleIndex < |rec.samples|
    ensures Label(rec, env, drawIndex).record ==
              rec.(trueGenotype := Label(rec, env, drawIndex).record.trueGenotype,
                   samples := Label(rec, env, drawIndex).record.samples)
    ensures |Label(rec, env, drawIndex).record.samples| == |rec.samples|
    ensures forall j :: 0 <= j < |rec.samples| && j != env.sampleIndex ==>
              Label(rec, env, drawIndex).record.samples[j] == rec.samples[j]
    ensures
      var before := rec.samples[env.sampleIndex];
      var after := Label(rec, env, drawIndex).record.samples[env.sampleIndex];
      var g := Choose(rec, env, drawIndex).genotypes;
      && after == before.(counts := after.counts, isVariant := after.isVariant)
      && |after.counts| == |before.counts|
      && forall i :: 0 <= i < |before.counts| ==>
           && after.counts[i] == before.counts[i].(isCalled := after.counts[i].isCalled)
           && (after.counts[i].isCalled <==>
                 || g[0] == Some(before.counts[i].toSequence)
                 || (|g| >= 3 && g[2] == Some(before.counts[i].toSequence)))
  {
    var c := Choose(rec, env, drawIndex);
    var before := rec.samples[env.sampleIndex];
    var cs := CalledCounts(before.counts, c.genotypes);
    assert cs.Success?;
  }

  /**
   * A record that is not skipped ends the run exactly when the sample index is out of range or
   * some count's allele differs from the first genotype piece while there is no third piece.
   */
  lemma LabelFails(rec: BaseInformation, env: Env, drawIndex: nat)
    requires !Label(rec, env, drawIndex).Skipped?
    ensures Label(rec, env, drawIndex).Failed? <==>
              || !(0 <= env.sampleIndex < |rec.samples|)
              || exists i :: 0 <= i < |rec.samples[env.sampleIndex].counts| &&
                   Choose(rec, env, drawIndex).genotypes[0] != Some(rec.samples[env.sampleIndex].counts[i].toSequence) &&
                   |Choose(rec, env, drawIndex).genotypes| < 3
  {
    var c := Choose(rec, env, drawIndex);
    assert |c.genotypes| >= 1;
    if 0 <= env.sampleIndex < |rec.samples| {
      var counts := rec.samples[env.sampleIndex].counts;
      if exists i :: 0 <= i < |counts| && c.genotypes[0] != Some(counts[i].toSequence) && |c.genotypes| < 3 {
        var i :| 0 <= i < |counts| && c.genotypes[0] != Some(counts[i].toSequence) && |c.genotypes| < 3;
        assert IsCalled(counts[i].toSequence, c.genotypes).Failure?;
      }
    }
  }

  /** A mapped record's pieces are the `split("|")` of its upper-cased map genotype, one piece per character. */
  lemma MappedPiecesAreSplit(rec: BaseInformation, env: Env, drawIndex: nat)
    requires Mapped(rec, env)
    ensures Choose(rec, env, drawIndex).genotypes == Somes(SplitEmptyRegex(Choose(rec, env, drawIndex).trueGenotype))
  {
  }

  /** For a mapped single-nucleotide genotype such as "A|T", the pieces compared are its first and third characters. */
  lemma MappedPiecesAreCharacters(rec: BaseInformation, env: Env, drawIndex: nat)
    requires Mapped(rec, env)
    requires |env.chMap[rec.referenceId][rec.position]| >= 3
    ensures
      var g := Upper(env.chMap[rec.referenceId][rec.position]);
      && |Choose(rec, env, drawIndex).genotypes| == |g|
      && Choose(rec, env, drawIndex).genotypes[0] == Some([g[0]])
      && Choose(rec, env, drawIndex).genotypes[2] == Some([g[2]])
  {
    MappedPiecesAreSplit(rec, env, drawIndex);
  }

  /**
   * Multi-base alleles are split into characters as well: for the genotype "AT|A" the pieces
   * compared are "A" and "|", so a count of "AT" is not called while a count of "A" is.
   */
  lemma MultiBaseAllelesAreSplit()
    ensures IsCalled("AT", Somes(SplitEmptyRegex("AT|A"))) == Success(false)
    ensures IsCalled("A", Somes(SplitEmptyRegex("AT|A"))) == Success(true)
  {
    var pieces := SplitEmptyRegex("AT|A");
    assert pieces[0] == "A" && pieces[2] == "|";
  }

  // ----- the loop over records -----

  /**
   * The state of the loop between records: the records written, `recordsLabeled`, the number of
   * variants added, the random values drawn, the records skipped, and the error that ended the
   * run, if any.
   */
  datatype RunState = RunState(
    written: seq<BaseInformation>,
    recordsLabeled: nat,
    variantsAdded: nat,
    draws: nat,
    skipped: nat,
    failure: Option<LabelError>)

  /** One more record; nothing happens once an exception has ended the run. */
  function Advance(s: RunState, rec: BaseInformation, env: Env): (r: RunState)
    ensures s.failure.Some? ==> r == s
  {
    if s.failure.Some? then s
    else
      var o := Label(rec, env, s.draws);
      RunState(
        s.written + (if o.Written? then [o.record] else []),
        s.recordsLabeled + Ind(o.Written?),
        s.variantsAdded + Ind(Mapped(rec, env)),
        s.draws + Ind(!Mapped(rec, env)),
        s.skipped + Ind(o.Skipped?),
        if o.Failed? then Some(o.error) else None)
  }

  /**
   * The loop over `records`. `recordsLabeled` is the number of records written, and every
   * record reached is either mapped (a variant added) or drawn for, so at most one variant is
   * added per record.
   */
  function Run(records: seq<BaseInformation>, env: Env): (r: RunState)
    ensures r.recordsLabeled == |r.written|
    ensures r.variantsAdded + r.draws <= |records|
    decreases |records|
  {
    if records == [] then RunState([], 0, 0, 0, 0, None)
    else Advance(Run(records[..|records| - 1], env), records[|records| - 1], env)
  }

  /**
   * One step of the loop: the written records only grow, by at most one that `recordsLabeled`
   * counts; a record reached either adds a variant or draws a random value, and, unless it
   * raises, is either skipped or labelled.
   */
  lemma AdvanceGrows(s: RunState, rec: BaseInformation, env: Env)
    ensures var r := Advance(s, rec, env);
      && s.written <= r.written && |r.written| <= |s.written| + 1
      && r.recordsLabeled + |s.written| == s.recordsLabeled + |r.written|
      && (r.failure.None? ==> s.failure.None? && r.recordsLabeled + r.skipped == s.recordsLabeled + s.skipped + 1)
      && (s.failure.None? ==> r.variantsAdded + r.draws == s.variantsAdded + s.draws + 1)
  {
  }

  /** When no exception ends the run, every record was mapped or drawn for, and was skipped or labelled. */
  lemma {:induction false} RunCounts(records: seq<BaseInformation>, env: Env)
    requires Run(records, env).failure.None?
    ensures Run(records, env).variantsAdded + Run(records, env).draws == |records|
    ensures Run(records, env).recordsLabeled + Run(records, env).skipped == |records|
    decreases |records|
  {
    if records != [] {
      RunCounts(records[..|records| - 1], env);
    }
  }

  /** The records written after a prefix of the input start the records written after all of it. */
  lemma {:induction false} RunWrittenPrefix(records: seq<BaseInformation>, env: Env, k: nat)
    requires k <= |records|
    ensures Run(records[..k], env).written <= Run(records, env).written
    decreases |records| - k
  {
    if k == |records| {
      assert records[..k] == records;
    } else {
      RunWrittenPrefix(records, env, k + 1);
      RunPrefix(records, k, env);
      AdvanceGrows(Run(records[..k], env), records[k], env);
    }
  }

  /** Every record labelled before an exception is written. */
  lemma RunWritesEveryLabel(records: seq<BaseInformation>, env: Env, k: nat)
    requires k < |records| && Run(records[..k], env).failure.None?
    requires Label(records[k], env, Run(records[..k], env).draws).Written?
    ensures Label(records[k], env, Run(records[..k], env).draws).record in Run(records, env).written
  {
    var s := Run(records[..k], env);
    RunPrefix(records, k, env);
    AdvanceWrites(s, records[k], env);
    RunWrittenPrefix(records, env, k + 1);
    InPrefix(Label(records[k], env, s.draws).record, Run(records[..k + 1], env).written, Run(records, env).written);
  }

  lemma InPrefix<T>(x: T, a: seq<T>, b: seq<T>)
    requires x in a && a <= b
    ensures x in b
  {
    assert a == b[..|a|];
  }

  /** A record labelled while no exception has ended the run is written. */
  lemma AdvanceWrites(s: RunState, rec: BaseInformation, env: Env)
    requires s.failure.None? && Label(rec, env, s.draws).Written?
    ensures Label(rec, env, s.draws).record in Advance(s, rec, env).written
  {
    assert Advance(s, rec, env).written == s.written + [Label(rec, env, s.draws).record];
  }

  /** Every record written is the label of a record reached before any exception. */
  lemma {:induction false} RunWritesOnlyLabels(records: seq<BaseInformation>, env: Env, w: BaseInformation)
    requires w in Run(records, env).written
    ensures exists k :: 0 <= k < |records| && Run(records[..k], env).failure.None? &&
                        Label(records[k], env, Run(records[..k], env).draws) == Written(w)
    decreases |records|
  {
    var n := |records| - 1;
    var prefix := records[..n];
    RunPrefix(records, n, env);
    assert records[..n + 1] == records;
    if w in Run(prefix, env).written {
      RunWritesOnlyLabels(prefix, env, w);
      var k :| 0 <= k < n && Run(prefix[..k], env).failure.None? &&
               Label(prefix[k], env, Run(prefix[..k], env).draws) == Written(w);
      PrefixOfPrefix(records, n, k);
    }
  }

  /**
   * The records written are exactly the labels of the records reached before any exception,
   * each labelled with the draws made before it.
   */
  lemma RunWritesLabels(records: seq<BaseInformation>, env: Env, w: BaseInformation)
    ensures w in Run(records, env).written <==>
              exists k :: 0 <= k < |records| && Run(records[..k], env).failure.None? &&
                          Label(records[k], env, Run(records[..k], env).draws) == Written(w)
  {
    if w in Run(records, env).written {
      RunWritesOnlyLabels(records, env, w);
    }
    if exists k :: 0 <= k < |records| && Run(records[..k], env).failure.None? &&
                   Label(records[k], env, Run(records[..k], env).draws) == Written(w) {
      var k :| 0 <= k < |records| && Run(records[..k], env).failure.None? &&
               Label(records[k], env, Run(records[..k], env).draws) == Written(w);
      RunWritesEveryLabel(records, env, k);
    }
  }

  lemma PrefixOfPrefix(records: seq<BaseInformation>, n: nat, k: nat)
    requires k < n <= |records|
    ensures records[..n][..k] == records[..k] && records[..n][k] == records[k]
  {
  }

  /** Once an exception has ended the run, later records change nothing. */
  lemma {:induction false} FailureIsFinal(records: seq<BaseInformation>, more: seq<BaseInformation>, env: Env)
    requires Run(records, env).failure.Some?
    ensures Run(records + more, env) == Run(records, env)
    decreases |more|
  {
    if more == [] {
      assert records + more == records;
    } else {
      var m := more[..|more| - 1];
      assert (records + more)[..|records + more| - 1] == records + m;
      FailureIsFinal(records, m, env);
    }
  }

  /** The loop over a prefix one record longer makes one more step. */
  lemma RunPrefix(records: seq<BaseInformation>, k: nat, env: Env)
    requires k < |records|
    ensures Run(records[..k + 1], env) == Advance(Run(records[..k], env), records[k], env)
  {
    assert records[..k + 1][..k] == records[..k];
  }

  /** The step the loop makes on record `k`, given that record's outcome. */
  lemma RunStep(records: seq<BaseInformation>, k: nat, env: Env, s: RunState, o: Outcome)
    requires k < |records| && Run(records[..k], env) == s && s.failure.None?
    requires o == Label(records[k], env, s.draws)
    ensures
      Run(records[..k + 1], env) == RunState(
        s.written + (if o.Written? then [o.record] else []),
        s.recordsLabeled + Ind(o.Written?),
        s.variantsAdded + Ind(Mapped(records[k], env)),
        s.draws + Ind(!Mapped(records[k], env)),
        s.skipped + Ind(o.Skipped?),
        if o.Failed? then Some(o.error) else None)
  {
    RunPrefix(records, k, env);
  }

  /** An exception on record `k` decides the whole run. */
  lemma FailureEndsRun(records: seq<BaseInformation>, k: nat, env: Env)
    requires k < |records| && Run(records[..k + 1], env).failure.Some?
    ensures Run(records, env) == Run(records[..k + 1], env)
  {
    var done, rest := records[..k + 1], records[k + 1..];
    SplitJoin(records, k + 1);
    FailureIsFinal(done, rest, env);
  }

  lemma SplitJoin<T>(s: seq<T>, i: nat)
    requires i <= |s|
    ensures s[..i] + s[i..] == s
  {
  }

  /** The tool: `numVariantsAdded` is a field, the rest of `execute`'s state is local. */
  class AddTrueGenotypes {
    var numVariantsAdded: nat

    constructor ()
      ensures numVariantsAdded == 0
    {
      numVariantsAdded := 0;
    }

    /**
     * The body of the for loop over records: choose its genotype, count a mapped record as a variant added,
     * and label it unless it is skipped. `drawIndex` is the number of random values drawn so far.
     */
    method LabelRecord(rec: BaseInformation, env: Env, drawIndex: nat) returns (o: Outcome)
      modifies this`numVariantsAdded
      ensures o == Label(rec, env, drawIndex)
      ensures numVariantsAdded == old(numVariantsAdded) + Ind(Mapped(rec, env))
    {
      var skip := false;
      var trueGenotype: string;
      var genotypes: seq<Option<string>>;
      var isVariant := false;
      if rec.referenceId in env.chMap && rec.position in env.chMap[rec.referenceId] {
        trueGenotype := Upper(env.chMap[rec.referenceId][rec.position]);
        genotypes := Somes(SplitEmptyRegex(trueGenotype));
        isVariant := true;
        numVariantsAdded := numVariantsAdded + 1;
      } else {
        if env.nextFloat(drawIndex) > env.referenceSamplingRate {
          skip := true;
        }
        var referenceBase := [env.genome(rec.referenceIndex, rec.position)];
        trueGenotype := referenceBase + "|" + referenceBase;
        referenceBase := Upper(referenceBase);
        genotypes := [Some(referenceBase), None, Some(referenceBase)];
      }
      assert Choice(trueGenotype, genotypes, isVariant, skip) == Choose(rec, env, drawIndex);
      if skip {
        return Skipped;
      }
      if !(0 <= env.sampleIndex < |rec.samples|) {
        return Failed(SampleIndexOutOfBounds(env.sampleIndex, |rec.samples|));
      }
      var sample := rec.samples[env.sampleIndex];
      var counts := MarkCalled(sample.counts, genotypes);
      if counts.Failure? {
        return Failed(counts.error);
      }
      o := Written(rec.(trueGenotype := Upper(ReplaceBar(trueGenotype)),
                        samples := rec.samples[env.sampleIndex := sample.(counts := counts.value, isVariant := isVariant)]));
    }

    /**
     * The for loop over records in `execute`: label every record in turn. Returns the records written, `recordsLabeled`,
     * and the exception that ended the loop, if one did; `numVariantsAdded` grows by the
     * number of mapped records reached.
     */
    method Execute(records: seq<BaseInformation>, env: Env)
      returns (written: seq<BaseInformation>, recordsLabeled: nat, failure: Option<LabelError>)
      modifies this
      ensures written == Run(records, env).written
      ensures recordsLabeled == Run(records, env).recordsLabeled
      ensures failure == Run(records, env).failure
      ensures numVariantsAdded == old(numVariantsAdded) + Run(records, env).variantsAdded
    {
      written, recordsLabeled, failure := [], 0, None;
      var draws := 0;
      ghost var skipped := 0;
      ghost var added := 0;
      var k := 0;
      while k < |records|
        invariant 0 <= k <= |records|
        invariant Run(records[..k], env) == RunState(written, recordsLabeled, added, draws, skipped, None)
        invariant numVariantsAdded == old(numVariantsAdded) + added
      {
        var rec := records[k];
        var mapped := rec.referenceId in env.chMap && rec.position in env.chMap[rec.referenceId];
        var o := LabelRecord(rec, env, draws);
        RunStep(records, k, env, RunState(written, recordsLabeled, added, draws, skipped, None), o);
        if mapped {
          added := added + 1;
        } else {
          draws := draws + 1;
        }
        match o {
          case Failed(e) =>
            failure := Some(e);
            FailureEndsRun(records, k, env);
            return;
          case Skipped =>
            skipped := skipped + 1;
          case Written(labelled) =>
            written := written + [labelled];
            recordsLabeled := recordsLabeled + 1;
        }
        k := k + 1;
      }
      assert records[..k] == records;
    }
  }
}
