/** Line: the statistics of one variant as read from its columns, the ones derived from
    them, the orientation-dependent getters and the record written out (the fields
    Line.line_string serialises). */
module Lines {
  import opened Wrappers
  import opened Text
  import opened Dicts
  import opened IntakeUtilities
  import opened VariantIdentity
  import opened FlipOutputs
  import GenomeReferences

  /** Line.null_link: the tokens that stand for a missing value. */
  const NULL_LINK: seq<string> := ["", "null", "na", "NaN", "NA"]

  /** The statistics fields of a Line. */
  datatype Stats = Stats(
    pValue: Option<real>,
    oddsRatio: Option<real>,
    beta: Option<real>,
    maf: Option<real>,
    eaf: Option<real>,
    stdErr: Option<real>,
    zScore: Option<real>,
    n: Option<real>,
    ncases: Option<real>)

  function Abs(x: real): (r: real)
    ensures r >= 0.0 && (r == x || r == -x)
  {
    if x < 0.0 then -x else x
  }

  /** Line.optional_float_column: an unmapped column is absent; a mapped one must exist
      in the line, and unless it holds a null token it must parse as a float. */
  function OptionalFloatColumn(formattedLine: seq<string>, colMap: Dict<int>, column: string,
                               num: Numerics): (r: Result<Option<real>>)
    ensures !HasKey(colMap, column) ==> r == Ok(None)
    ensures HasKey(colMap, column) ==>
              (r.Err? <==> Cell(formattedLine, colMap, column).Err?
                           || (Cell(formattedLine, colMap, column).value !in NULL_LINK
                               && num.parseFloat(Cell(formattedLine, colMap, column).value).None?))
    ensures r.Ok? && r.value.Some? ==>
              Cell(formattedLine, colMap, column).Ok?
              && Cell(formattedLine, colMap, column).value !in NULL_LINK
              && num.parseFloat(Cell(formattedLine, colMap, column).value) == r.value
  {
    if !HasKey(colMap, column) then Ok(None)
    else
      var colStr :- Cell(formattedLine, colMap, column);
      if colStr in NULL_LINK then Ok(None)
      else
        var x :- num.parseFloat(colStr).ToResult();
        Ok(Some(x))
  }

  /** The column reads of Line.__init__, in its order; maf and zScore start absent. */
  function ReadColumns(formattedLine: seq<string>, colMap: Dict<int>, num: Numerics): (r: Result<Stats>)
    ensures r.Ok? ==> r.value.maf.None? && r.value.zScore.None?
    ensures r.Ok? ==> OptionalFloatColumn(formattedLine, colMap, "pValue", num).Ok?
                      && r.value.pValue == OptionalFloatColumn(formattedLine, colMap, "pValue", num).value
    ensures r.Ok? ==> OptionalFloatColumn(formattedLine, colMap, "eaf", num).Ok?
                      && r.value.eaf == OptionalFloatColumn(formattedLine, colMap, "eaf", num).value
    ensures r.Err? <==> exists c :: c in ["pValue", "oddsRatio", "beta", "eaf", "stdErr", "n", "ncases"]
                                    && OptionalFloatColumn(formattedLine, colMap, c, num).Err?
  {
    var pValue :- OptionalFloatColumn(formattedLine, colMap, "pValue", num);
    var oddsRatio :- OptionalFloatColumn(formattedLine, colMap, "oddsRatio", num);
    var beta :- OptionalFloatColumn(formattedLine, colMap, "beta", num);
    var eaf :- OptionalFloatColumn(formattedLine, colMap, "eaf", num);
    var stdErr :- OptionalFloatColumn(formattedLine, colMap, "stdErr", num);
    var n :- OptionalFloatColumn(formattedLine, colMap, "n", num);
    var ncases :- OptionalFloatColumn(formattedLine, colMap, "ncases", num);
    Ok(Stats(pValue, oddsRatio, beta, None, eaf, stdErr, None, n, ncases))
  }

  /** Line.infer_eff_n: for a dichotomous trait the effective sample size
      4 / (1/cases + 1/controls), which raises when a count is missing or a division
      is by zero; for a continuous trait the subject count, possibly absent. */
  function InferEffN(meta: Metadata): (r: Result<Option<real>>)
    ensures meta.dichotomous ==> (r.Err? <==> meta.cases.None? || meta.controls.None?
                                              || meta.cases.value == 0 || meta.controls.value == 0
                                              || 1.0 / meta.cases.value as real + 1.0 / meta.controls.value as real == 0.0)
    ensures meta.dichotomous && r.Ok? ==>
              r.value.Some?
              && r.value.value * (1.0 / meta.cases.value as real + 1.0 / meta.controls.value as real) == 4.0
    ensures !meta.dichotomous ==>
              r == Ok(if meta.subjects.Some? then Some(meta.subjects.value as real) else None)
  {
    if meta.dichotomous then
      if meta.cases.None? || meta.controls.None? then Err
      else if meta.cases.value == 0 || meta.controls.value == 0 then Err
      else
        var s := 1.0 / meta.cases.value as real + 1.0 / meta.controls.value as real;
        if s == 0.0 then Err else Ok(Some(4.0 / s))
    else Ok(if meta.subjects.Some? then Some(meta.subjects.value as real) else None)
  }

  /** With positive case and control counts the effective sample size exists and is
      positive. */
  lemma EffectiveSampleSizePositive(meta: Metadata)
    requires meta.dichotomous && meta.cases.Some? && meta.controls.Some?
    requires meta.cases.value > 0 && meta.controls.value > 0
    ensures InferEffN(meta).Ok? && InferEffN(meta).value.Some? && InferEffN(meta).value.value > 0.0
  {
    var a, b := meta.cases.value as real, meta.controls.value as real;
    assert 1.0 / a > 0.0 && 1.0 / b > 0.0;
  }

  /** The first step of Line.derive_optional_columns: beta from the odds ratio, where
      `math.log` raises for a ratio that is not positive. */
  function DeriveBeta(s: Stats, num: Numerics): Result<Stats> {
    if s.beta.None? && s.oddsRatio.Some? then
      if s.oddsRatio.value <= 0.0 then Err else Ok(s.(beta := Some(num.log(s.oddsRatio.value))))
    else Ok(s)
  }

  /** The standard error from beta and the p-value: 1.0 when beta is zero, otherwise
      -|beta| / ppf(p / 2). The divisor is a `numpy.float64`, so the division never
      raises, not even at p = 1 where ppf(0.5) is zero. */
  function DeriveStdErr(s: Stats, num: Numerics): Stats {
    if s.stdErr.None? && s.beta.Some? && s.pValue.Some? then
      if s.beta.value != 0.0 then
        s.(stdErr := Some(NpDivide(num, -Abs(s.beta.value), num.ppf(s.pValue.value / 2.0))))
      else s.(stdErr := Some(1.0))
    else s
  }

  /** The z-score beta / stdErr. A standard error read from the file is a Python float,
      and dividing by it raises when it is zero; a derived one is numpy's quotient (or
      1.0), and dividing by it never raises. */
  function DeriveZScore(s: Stats, derivedStdErr: bool, num: Numerics): Result<Stats> {
    if s.zScore.None? && s.beta.Some? && s.stdErr.Some? then
      if derivedStdErr then Ok(s.(zScore := Some(NpDivide(num, s.beta.value, s.stdErr.value))))
      else if s.stdErr.value == 0.0 then Err
      else Ok(s.(zScore := Some(s.beta.value / s.stdErr.value)))
    else Ok(s)
  }

  /** The minor allele frequency from the effect allele frequency. */
  function DeriveMaf(s: Stats): Stats {
    if s.maf.None? && s.eaf.Some? then
      s.(maf := Some(if s.eaf.value <= 0.5 then s.eaf.value else 1.0 - s.eaf.value))
    else s
  }

  /** The sample size, inferred when the line gives none. */
  function DeriveN(s: Stats, meta: Metadata): Result<Stats> {
    if s.n.None? then
      var n :- InferEffN(meta);
      Ok(s.(n := n))
    else Ok(s)
  }

  /** Line.derive_optional_columns, the steps in the source's order. */
  function Derive(s: Stats, meta: Metadata, num: Numerics): Result<Stats> {
    var s1 :- DeriveBeta(s, num);
    var s2 := DeriveStdErr(s1, num);
    var s3 :- DeriveZScore(s2, s1.stdErr.None?, num);
    DeriveN(DeriveMaf(s3), meta)
  }

  /** `d` agrees with `s` on the p-value, odds ratio, eaf and ncases, and on every
      other field `s` already has. */
  predicate FillsOnly(s: Stats, d: Stats) {
    && d.pValue == s.pValue && d.oddsRatio == s.oddsRatio && d.eaf == s.eaf && d.ncases == s.ncases
    && (s.beta.Some? ==> d.beta == s.beta) && (s.maf.Some? ==> d.maf == s.maf)
    && (s.stdErr.Some? ==> d.stdErr == s.stdErr) && (s.zScore.Some? ==> d.zScore == s.zScore)
    && (s.n.Some? ==> d.n == s.n)
  }

  /** Each step of the derivation only fills in absent fields. */
  lemma DeriveStepsFillOnly(s: Stats, meta: Metadata, num: Numerics)
    ensures DeriveBeta(s, num).Ok? ==> FillsOnly(s, DeriveBeta(s, num).value)
    ensures FillsOnly(s, DeriveStdErr(s, num))
    ensures forall derived :: DeriveZScore(s, derived, num).Ok? ==> FillsOnly(s, DeriveZScore(s, derived, num).value)
    ensures FillsOnly(s, DeriveMaf(s))
    ensures DeriveN(s, meta).Ok? ==> FillsOnly(s, DeriveN(s, meta).value)
  {
  }

  lemma FillsOnlyTransitive(a: Stats, b: Stats, c: Stats)
    requires FillsOnly(a, b) && FillsOnly(b, c)
    ensures FillsOnly(a, c)
  {
  }

  /** Derivation only fills in absent fields: every field present before keeps its value,
      and the p-value, odds ratio, eaf and ncases are never changed. */
  lemma DeriveKeepsGiven(s: Stats, meta: Metadata, num: Numerics)
    requires Derive(s, meta, num).Ok?
    ensures FillsOnly(s, Derive(s, meta, num).value)
  {
    var s1 := DeriveBeta(s, num).value;
    var s2 := DeriveStdErr(s1, num);
    var s3 := DeriveZScore(s2, s1.stdErr.None?, num).value;
    var s4 := DeriveMaf(s3);
    DeriveStepsFillOnly(s, meta, num);
    DeriveStepsFillOnly(s1, meta, num);
    DeriveStepsFillOnly(s2, meta, num);
    DeriveStepsFillOnly(s3, meta, num);
    DeriveStepsFillOnly(s4, meta, num);
    FillsOnlyTransitive(s, s1, s2);
    FillsOnlyTransitive(s, s2, s3);
    FillsOnlyTransitive(s, s3, s4);
    FillsOnlyTransitive(s, s4, DeriveN(s4, meta).value);
  }

  /** A derived minor allele frequency is the eaf or its complement and never above 0.5;
      for an eaf in [0, 1] it lies in [0, 0.5]. */
  lemma DeriveMafBounds(s: Stats, meta: Metadata, num: Numerics)
    requires Derive(s, meta, num).Ok? && s.maf.None? && s.eaf.Some?
    ensures var m := Derive(s, meta, num).value.maf;
            && m.Some? && m.value <= 0.5
            && (m.value == s.eaf.value || m.value == 1.0 - s.eaf.value)
            && (0.0 <= s.eaf.value <= 1.0 ==> 0.0 <= m.value)
  {
    var s1 := DeriveBeta(s, num).value;
    var s2 := DeriveStdErr(s1, num);
    var s3 := DeriveZScore(s2, s1.stdErr.None?, num).value;
    assert s3.maf == s.maf && s3.eaf == s.eaf;
    assert DeriveN(DeriveMaf(s3), meta).value.maf == DeriveMaf(s3).maf;
  }

  /** A zero beta with a p-value and no standard error gets standard error 1.0 and
      z-score 0, without consulting ppf. */
  lemma DeriveZeroBeta(s: Stats, meta: Metadata, num: Numerics)
    requires s.beta == Some(0.0) && s.stdErr.None? && s.zScore.None? && s.pValue.Some?
    requires InferEffN(meta).Ok? || s.n.Some?
    ensures Derive(s, meta, num).Ok?
    ensures Derive(s, meta, num).value.stdErr == Some(1.0)
    ensures Derive(s, meta, num).value.zScore == Some(0.0)
  {
    assert DeriveBeta(s, num) == Ok(s);
    var s2 := s.(stdErr := Some(1.0));
    assert DeriveStdErr(s, num) == s2;
    assert DeriveZScore(s2, true, num) == Ok(s2.(zScore := Some(0.0)));
  }

  /** The z-score is present exactly with beta and the standard error, and is their
      quotient (numpy's, for a zero standard error that was derived). */
  predicate ZScoreIsRatio(d: Stats, num: Numerics) {
    && (d.zScore.Some? <==> d.beta.Some? && d.stdErr.Some?)
    && (d.zScore.Some? ==> d.zScore.value == NpDivide(num, d.beta.value, d.stdErr.value))
  }

  /** Whenever a z-score is derived it is the (final) beta over the (final) standard error. */
  lemma DeriveZScoreIsRatio(s: Stats, meta: Metadata, num: Numerics)
    requires Derive(s, meta, num).Ok? && s.zScore.None?
    ensures ZScoreIsRatio(Derive(s, meta, num).value, num)
  {
    var s1 := DeriveBeta(s, num).value;
    var s2 := DeriveStdErr(s1, num);
    var s3 := DeriveZScore(s2, s1.stdErr.None?, num).value;
    var s4 := DeriveMaf(s3);
    assert s2.zScore.None? by {
      DeriveStepsFillOnly(s, meta, num);
      DeriveStepsFillOnly(s1, meta, num);
    }
    assert ZScoreIsRatio(s3, num);
    assert ZScoreIsRatio(s4, num);
    var d := DeriveN(s4, meta).value;
    assert d.beta == s4.beta && d.stdErr == s4.stdErr && d.zScore == s4.zScore;
  }

  /** The values derivation fills in: beta is the log of the odds ratio; the standard
      error is 1.0 for a zero beta and otherwise numpy's -|beta| / ppf(p / 2), so a
      p-value of 1 gives `npOverZero` rather than a raise; n is what infer_eff_n gives. */
  lemma DeriveValues(s: Stats, meta: Metadata, num: Numerics)
    requires Derive(s, meta, num).Ok?
    ensures var d := Derive(s, meta, num).value;
            s.beta.None? && s.oddsRatio.Some? ==> d.beta == Some(num.log(s.oddsRatio.value))
    ensures var d := Derive(s, meta, num).value;
            s.stdErr.None? && d.beta.Some? && s.pValue.Some? ==>
              d.stdErr == Some(if d.beta.value == 0.0 then 1.0
                               else NpDivide(num, -Abs(d.beta.value), num.ppf(s.pValue.value / 2.0)))
    ensures var d := Derive(s, meta, num).value;
            s.stdErr.None? && (d.beta.None? || s.pValue.None?) ==> d.stdErr.None?
    ensures var d := Derive(s, meta, num).value;
            s.n.None? ==> InferEffN(meta).Ok? && d.n == InferEffN(meta).value
  {
    var s1 := DeriveBeta(s, num).value;
    var s2 := DeriveStdErr(s1, num);
    var s3 := DeriveZScore(s2, s1.stdErr.None?, num).value;
    var s4 := DeriveMaf(s3);
    var d := DeriveN(s4, meta).value;
    assert d.beta == s1.beta && d.stdErr == s2.stdErr && d.pValue == s.pValue;
  }

  /** Derivation raises exactly for a non-positive odds ratio it has to take the log of,
      for a zero standard error read from the file next to a beta (Python's float
      division), and for a sample size that infer_eff_n cannot compute. A derived
      standard error never makes it raise. */
  lemma DeriveFailures(s: Stats, meta: Metadata, num: Numerics)
    ensures Derive(s, meta, num).Err? <==>
              || (s.beta.None? && s.oddsRatio.Some? && s.oddsRatio.value <= 0.0)
              || ((s.beta.Some? || s.oddsRatio.Some?) && s.stdErr == Some(0.0) && s.zScore.None?)
              || (s.n.None? && InferEffN(meta).Err?)
  {
    if DeriveBeta(s, num).Ok? {
      var s1 := DeriveBeta(s, num).value;
      var s2 := DeriveStdErr(s1, num);
      assert s1.beta.Some? <==> s.beta.Some? || s.oddsRatio.Some?;
      if s.stdErr.Some? {
        assert s2 == s1;
      }
      if DeriveZScore(s2, s1.stdErr.None?, num).Ok? {
        var s4 := DeriveMaf(DeriveZScore(s2, s1.stdErr.None?, num).value);
        assert s4.n == s.n;
      }
    }
  }

  /** Line.get_beta: withheld under null_beta, negated under a flip. */
  function GetBeta(s: Stats, fo: FlipOutput): Option<real> {
    if !fo.nullBeta && s.beta.Some? then Some(if !fo.flip then s.beta.value else -s.beta.value)
    else None
  }

  /** Line.get_odds_ratio: inverted under a flip, which raises for a zero ratio. */
  function GetOddsRatio(s: Stats, fo: FlipOutput): Result<Option<real>> {
    if s.oddsRatio.Some? then
      if !fo.flip then Ok(s.oddsRatio)
      else if s.oddsRatio.value == 0.0 then Err
      else Ok(Some(1.0 / s.oddsRatio.value))
    else Ok(None)
  }

  /** Line.get_eaf: the other allele's frequency under a flip. */
  function GetEaf(s: Stats, fo: FlipOutput): Option<real> {
    if s.eaf.Some? then Some(if !fo.flip then s.eaf.value else 1.0 - s.eaf.value) else None
  }

  /** Line.get_zScore: negated under a flip. */
  function GetZScore(s: Stats, fo: FlipOutput): Option<real> {
    if s.zScore.Some? then Some(if !fo.flip then s.zScore.value else -s.zScore.value) else None
  }

  /** The statistics as the getters report them for a decision. */
  function Reoriented(s: Stats, fo: FlipOutput): Result<Stats> {
    var oddsRatio :- GetOddsRatio(s, fo);
    Ok(s.(beta := GetBeta(s, fo), oddsRatio := oddsRatio, eaf := GetEaf(s, fo), zScore := GetZScore(s, fo)))
  }

  /** Flipping is an involution on what the getters report: reorienting flipped
      statistics once more gives the original ones back. */
  lemma FlipTwiceRestores(s: Stats, fo: FlipOutput)
    requires fo.flip && !fo.nullBeta && Reoriented(s, fo).Ok?
    ensures Reoriented(Reoriented(s, fo).value, fo) == Ok(s)
  {
    var t := Reoriented(s, fo).value;
    if s.oddsRatio.Some? {
      assert t.oddsRatio == Some(1.0 / s.oddsRatio.value);
      assert 1.0 / (1.0 / s.oddsRatio.value) == s.oddsRatio.value;
    }
    assert GetBeta(t, fo) == s.beta;
    assert GetEaf(t, fo) == s.eaf;
    assert GetZScore(t, fo) == s.zScore;
  }

  /** Without a flip or null_beta the getters report the statistics unchanged. */
  lemma UnflippedIsIdentity(s: Stats, fo: FlipOutput)
    requires !fo.flip && !fo.nullBeta
    ensures Reoriented(s, fo) == Ok(s)
  {
  }

  /** null_beta withholds beta and nothing else: the odds ratio, eaf and z-score are
      reported as they would be without it. */
  lemma NullBetaWithholdsOnlyBeta(s: Stats, fo: FlipOutput)
    requires fo.nullBeta
    ensures GetBeta(s, fo).None?
    ensures GetOddsRatio(s, fo) == GetOddsRatio(s, fo.(nullBeta := false))
    ensures GetEaf(s, fo) == GetEaf(s, fo.(nullBeta := false))
    ensures GetZScore(s, fo) == GetZScore(s, fo.(nullBeta := false))
  {
  }

  /** The fields Line.line_string serialises, with g1000_eaf the population AF of the
      emitted alleles. */
  datatype OutputRecord = OutputRecord(
    varId: string,
    chromosome: string,
    position: int,
    reference: string,
    alt: string,
    multiAllelic: bool,
    dataset: string,
    phenotype: string,
    ancestry: string,
    g1000Eaf: Option<real>,
    pValue: real,
    beta: Option<real>,
    oddsRatio: Option<real>,
    eaf: Option<real>,
    maf: Option<real>,
    stdErr: Option<real>,
    zScore: Option<real>,
    n: Option<real>,
    ncases: Option<real>)

  /** Line.line_string. It raises when the p-value is absent (the comparison with 0.0
      fails), when the oddsRatio getter raises and when the AF lookup raises. A
      complement is only requested where both complements exist. */
  function LineString(v: VarId, s: Stats, fo: FlipOutput, utils: Utilities, num: Numerics)
    : (r: Result<OutputRecord>)
    requires fo.compliment ==> v.complimentRef.Some? && v.complimentAlt.Some?
    ensures r.Ok? ==> (r.value.reference, r.value.alt) == v.FlipAndOrCompliment(fo.flip, fo.compliment)
                      && r.value.varId == v.FormatVarId(r.value.reference, r.value.alt)
                      && r.value.chromosome == v.normChr && r.value.position == v.position
                      && r.value.multiAllelic == v.multiallelic
    ensures r.Ok? ==> s.pValue.Some?
                      && (s.pValue.value > 0.0 ==> r.value.pValue == s.pValue.value)
                      && (s.pValue.value <= 0.0 ==> r.value.pValue == num.tiny)
                      && (num.Valid() ==> r.value.pValue > 0.0)
    ensures r.Ok? ==> Reoriented(s, fo).Ok?
                      && var t := Reoriented(s, fo).value;
                      r.value.beta == t.beta && r.value.oddsRatio == t.oddsRatio
                      && r.value.eaf == t.eaf && r.value.zScore == t.zScore
                      && r.value.maf == s.maf && r.value.stdErr == s.stdErr
                      && r.value.n == s.n && r.value.ncases == s.ncases
    ensures s.pValue.None? ==> r.Err?
    ensures var (ref, alt) := v.FlipAndOrCompliment(fo.flip, fo.compliment);
            (':' !in v.normChr && ':' !in ref && ':' !in alt && s.pValue.Some?
             && GetOddsRatio(s, fo).Ok?) ==> r.Ok?
  {
    var (ref, alt) := v.FlipAndOrCompliment(fo.flip, fo.compliment);
    var varId := v.FormatVarId(ref, alt);
    assert ':' !in v.normChr && ':' !in ref && ':' !in alt ==> GenomeReferences.Lookup(utils.g1000, varId).Ok? by {
      if ':' !in v.normChr && ':' !in ref && ':' !in alt {
        FormatVarIdFields(v, ref, alt);
      }
    }
    var ancestryEaf :- GenomeReferences.Lookup(utils.g1000, varId);
    var pValue :- s.pValue.ToResult();
    var oddsRatio :- GetOddsRatio(s, fo);
    Ok(OutputRecord(
      varId, v.normChr, v.position, ref, alt, v.multiallelic,
      utils.meta.dataset, utils.meta.phenotype, utils.meta.ancestry, ancestryEaf,
      if pValue > 0.0 then pValue else num.tiny,
      GetBeta(s, fo), oddsRatio, GetEaf(s, fo), s.maf, s.stdErr, GetZScore(s, fo), s.n, s.ncases))
  }

  /** Line: a variant with its statistics, filled in field by field. */
  class Line {
    const varId: VarId
    var pValue: Option<real>
    var oddsRatio: Option<real>
    var beta: Option<real>
    var maf: Option<real>
    var eaf: Option<real>
    var stdErr: Option<real>
    var zScore: Option<real>
    var n: Option<real>
    var ncases: Option<real>

    function Values(): Stats
      reads this
    {
      Stats(pValue, oddsRatio, beta, maf, eaf, stdErr, zScore, n, ncases)
    }

    /** The field assignments of Line.__init__ from the columns already read; maf and
        zScore start absent. */
    constructor (varId: VarId, columns: Stats)
      ensures this.varId == varId
      ensures Values() == columns.(maf := None, zScore := None)
    {
      this.varId := varId;
      pValue := columns.pValue;
      oddsRatio := columns.oddsRatio;
      beta := columns.beta;
      maf := None;
      eaf := columns.eaf;
      stdErr := columns.stdErr;
      zScore := None;
      n := columns.n;
      ncases := columns.ncases;
    }

    /** Line.derive_optional_columns, assigning each derived field in turn; `false`
        where the source raises. */
    method DeriveOptionalColumns(meta: Metadata, num: Numerics) returns (ok: bool)
      modifies this
      ensures ok == Derive(old(Values()), meta, num).Ok?
      ensures ok ==> Values() == Derive(old(Values()), meta, num).value
    {
      ok := SetBeta(num);
      if !ok {
        return;
      }
      var derivedStdErr := stdErr.None?;
      SetStdErr(num);
      ok := SetZScore(derivedStdErr, num);
      if !ok {
        return;
      }
      SetMaf();
      ok := SetN(meta);
    }

    method SetBeta(num: Numerics) returns (ok: bool)
      modifies this
      ensures ok == DeriveBeta(old(Values()), num).Ok?
      ensures ok ==> Values() == DeriveBeta(old(Values()), num).value
    {
      ok := true;
      if beta.None? && oddsRatio.Some? {
        if oddsRatio.value <= 0.0 {
          return false;
        }
        beta := Some(num.log(oddsRatio.value));
      }
    }

    method SetStdErr(num: Numerics)
      modifies this
      ensures Values() == DeriveStdErr(old(Values()), num)
    {
      if stdErr.None? && beta.Some? && pValue.Some? {
        if beta.value != 0.0 {
          stdErr := Some(NpDivide(num, -Abs(beta.value), num.ppf(pValue.value / 2.0)));
        } else {
          stdErr := Some(1.0);
        }
      }
    }

    /** `derivedStdErr` says whether SetStdErr filled in the standard error. */
    method SetZScore(derivedStdErr: bool, num: Numerics) returns (ok: bool)
      modifies this
      ensures ok == DeriveZScore(old(Values()), derivedStdErr, num).Ok?
      ensures ok ==> Values() == DeriveZScore(old(Values()), derivedStdErr, num).value
    {
      ok := true;
      if zScore.None? && beta.Some? && stdErr.Some? {
        if derivedStdErr {
          zScore := Some(NpDivide(num, beta.value, stdErr.value));
        } else {
          if stdErr.value == 0.0 {
            return false;
          }
          zScore := Some(beta.value / stdErr.value);
        }
      }
    }

    method SetMaf()
      modifies this
      ensures Values() == DeriveMaf(old(Values()))
    {
      if maf.None? && eaf.Some? {
        maf := Some(if eaf.value <= 0.5 then eaf.value else 1.0 - eaf.value);
      }
    }

    method SetN(meta: Metadata) returns (ok: bool)
      modifies this
      ensures ok == DeriveN(old(Values()), meta).Ok?
      ensures ok ==> Values() == DeriveN(old(Values()), meta).value
    {
      ok := true;
      if n.None? {
        var inferred := InferEffN(meta);
        if inferred.Err? {
          return false;
        }
        n := inferred.value;
      }
    }
  }

  /** `Line(var_id, formatted_line, col_map, utils)`: read the columns, then derive. */
  method NewLine(varId: VarId, formattedLine: seq<string>, colMap: Dict<int>, utils: Utilities,
                 num: Numerics) returns (r: Result<Line>)
    ensures r.Ok? <==> ReadColumns(formattedLine, colMap, num).Ok?
                       && Derive(ReadColumns(formattedLine, colMap, num).value, utils.meta, num).Ok?
    ensures r.Ok? ==> fresh(r.value) && r.value.varId == varId
                      && r.value.Values() == Derive(ReadColumns(formattedLine, colMap, num).value, utils.meta, num).value
  {
    var columns :- ReadColumns(formattedLine, colMap, num);
    var line := new Line(varId, columns);
    var ok := line.DeriveOptionalColumns(utils.meta, num);
    if !ok {
      return Err;
    }
    return Ok(line);
  }
}
