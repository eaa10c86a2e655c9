/** LineFlipper: the decision, per variant, whether to swap the alleles and/or take their
    complements so that the emitted reference allele is the GRCh37 base, and the
    formatting of the line under that decision. */
module LineFlipping {
  import opened Wrappers
  import opened Text
  import GenomeReferences
  import opened IntakeUtilities
  import opened VariantIdentity
  import opened FlipOutputs
  import opened Lines
  import opened IntakeCounters

  const AF_CHECK_THRESHOLD: real := 0.3
  const NEVER_COMPLIMENT_THRESHOLD: real := 0.1
  const ALWAYS_COMPLIMENT_THRESHOLD: real := 1.0 - NEVER_COMPLIMENT_THRESHOLD

  /** The allele-frequency checks of an ambiguous variant compare the population
      frequency `af` of the variant as given with the line's effect-allele frequency
      `eaf`. They agree when both are rare or both are common. */
  predicate AfLowMatch(af: real, eaf: real) {
    af < AF_CHECK_THRESHOLD && eaf < AF_CHECK_THRESHOLD
  }

  predicate AfHighMatch(af: real, eaf: real) {
    af > 1.0 - AF_CHECK_THRESHOLD && eaf > 1.0 - AF_CHECK_THRESHOLD
  }

  predicate AfMatch(af: real, eaf: real) {
    AfLowMatch(af, eaf) || AfHighMatch(af, eaf)
  }

  /** They disagree when one is rare and the other common. */
  predicate AfLowNotMatch(af: real, eaf: real) {
    af < AF_CHECK_THRESHOLD && eaf > 1.0 - AF_CHECK_THRESHOLD
  }

  predicate AfHighNotMatch(af: real, eaf: real) {
    af > 1.0 - AF_CHECK_THRESHOLD && eaf < AF_CHECK_THRESHOLD
  }

  predicate AfNotMatch(af: real, eaf: real) {
    AfLowNotMatch(af, eaf) || AfHighNotMatch(af, eaf)
  }

  /** The two checks never both hold, a disagreement is an agreement with the other
      allele's frequency, and a frequency in the middle band [0.3, 0.7] (bounds
      included) decides neither way. */
  lemma AfChecks(af: real, eaf: real)
    ensures !(AfMatch(af, eaf) && AfNotMatch(af, eaf))
    ensures AfNotMatch(af, eaf) <==> AfMatch(af, 1.0 - eaf)
    ensures AF_CHECK_THRESHOLD <= af <= 1.0 - AF_CHECK_THRESHOLD ==> !AfMatch(af, eaf) && !AfNotMatch(af, eaf)
    ensures AF_CHECK_THRESHOLD <= eaf <= 1.0 - AF_CHECK_THRESHOLD ==> !AfMatch(af, eaf) && !AfNotMatch(af, eaf)
  {
  }

  /** LineFlipper.build_unambiguous_line: the first of the four matches decides; none
      raises. */
  function BuildUnambiguousLine(v: VarId): (r: Result<FlipOutput>)
    requires v.actualRef.Some?
    ensures r.Ok? <==> v.RefMatch() || v.RefCompliment() || v.AltMatch() || v.AltCompliment()
    ensures r.Ok? ==> !r.value.nullBeta && !r.value.missingAf && !r.value.isAmbiguous
    ensures r.Ok? ==> (r.value.flip <==> !v.RefMatch() && !v.RefCompliment())
  {
    if v.RefMatch() then Ok(FlipOutput(false, false, false, false, false))
    else if v.RefCompliment() then Ok(FlipOutput(false, true, false, false, false))
    else if v.AltMatch() then Ok(FlipOutput(true, false, false, false, false))
    else if v.AltCompliment() then Ok(FlipOutput(true, true, false, false, false))
    else Err
  }

  /** build_ambiguous_line_with_correct_ref_with_af. */
  function WithCorrectRefAf(af: Option<real>, eaf: Option<real>): FlipOutput {
    if af.None? || eaf.None? then FlipOutput(false, false, true, true, true)
    else if AfMatch(af.value, eaf.value) then FlipOutput(false, false, false, false, true)
    else if AfNotMatch(af.value, eaf.value) then FlipOutput(true, true, false, false, true)
    else FlipOutput(false, false, true, false, true)
  }

  /** build_ambiguous_line_with_incorrect_ref_with_af. */
  function WithIncorrectRefAf(af: Option<real>, eaf: Option<real>): FlipOutput {
    if af.None? || eaf.None? then FlipOutput(false, false, true, true, true)
    else if AfMatch(af.value, eaf.value) then FlipOutput(false, true, false, false, true)
    else if AfNotMatch(af.value, eaf.value) then FlipOutput(true, false, false, false, true)
    else FlipOutput(false, false, true, false, true)
  }

  /** build_ambiguous_line_with_correct_ref. An undefined dataset fraction raises at the
      first comparison; in the middle band the population frequency of `ref:alt` is
      consulted, and that lookup can raise. */
  function WithCorrectRef(v: VarId, eaf: Option<real>, fraction: Option<real>,
                          g1000: GenomeReferences.AfSource): Result<FlipOutput> {
    var f :- fraction.ToResult();
    if f < NEVER_COMPLIMENT_THRESHOLD then Ok(FlipOutput(false, false, false, false, true))
    else if f > ALWAYS_COMPLIMENT_THRESHOLD then Ok(FlipOutput(true, true, false, false, true))
    else
      var af :- g1000(v.FormatVarId(v.ref, v.alt));
      Ok(WithCorrectRefAf(af, eaf))
  }

  /** build_ambiguous_line_with_incorrect_ref: as above, consulting `alt:ref`. */
  function WithIncorrectRef(v: VarId, eaf: Option<real>, fraction: Option<real>,
                            g1000: GenomeReferences.AfSource): Result<FlipOutput> {
    var f :- fraction.ToResult();
    if f < NEVER_COMPLIMENT_THRESHOLD then Ok(FlipOutput(true, false, false, false, true))
    else if f > ALWAYS_COMPLIMENT_THRESHOLD then Ok(FlipOutput(false, true, false, false, true))
    else
      var af :- g1000(v.FormatVarId(v.alt, v.ref));
      Ok(WithIncorrectRefAf(af, eaf))
  }

  /** The population-frequency key build_ambiguous_line looks up: the alleles in the
      orientation the genome matched. */
  function AfKey(v: VarId): string
    requires v.actualRef.Some?
  {
    if v.RefMatch() then v.FormatVarId(v.ref, v.alt) else v.FormatVarId(v.alt, v.ref)
  }

  /** LineFlipper.build_ambiguous_line. It raises when neither allele matches and when
      the dataset fraction is undefined. Whenever beta is kept, it flips and complements
      together when the reference allele matched, and does exactly one of the two when
      the alternate allele matched. Outside the middle band the
      fraction alone chooses the strand: complemented above 0.9. Inside it the
      frequency check chooses: complemented exactly when the matching allele is the
      reference and the frequencies disagree, or it is the alternate and they agree. */
  function BuildAmbiguousLine(v: VarId, eaf: Option<real>, fraction: Option<real>,
                              g1000: GenomeReferences.AfSource): (r: Result<FlipOutput>)
    requires v.actualRef.Some?
    ensures !v.RefMatch() && !v.AltMatch() ==> r.Err?
    ensures fraction.None? ==> r.Err?
    ensures r.Ok? ==> r.value.isAmbiguous
    ensures r.Ok? && !r.value.nullBeta ==> (r.value.flip <==> (v.RefMatch() <==> r.value.compliment))
    ensures r.Ok? && (fraction.value < NEVER_COMPLIMENT_THRESHOLD || fraction.value > ALWAYS_COMPLIMENT_THRESHOLD)
            ==> !r.value.nullBeta && (r.value.compliment <==> fraction.value > ALWAYS_COMPLIMENT_THRESHOLD)
    ensures r.Ok? && NEVER_COMPLIMENT_THRESHOLD <= fraction.value <= ALWAYS_COMPLIMENT_THRESHOLD
            && !r.value.nullBeta
            ==> g1000(AfKey(v)).Ok?
                && var af := g1000(AfKey(v)).value;
                af.Some? && eaf.Some?
                && (AfMatch(af.value, eaf.value) || AfNotMatch(af.value, eaf.value))
                && (r.value.compliment <==> (v.RefMatch() <==> AfNotMatch(af.value, eaf.value)))
  {
    if v.RefMatch() then WithCorrectRef(v, eaf, fraction, g1000)
    else if v.AltMatch() then WithIncorrectRef(v, eaf, fraction, g1000)
    else Err
  }

  /** The decision for a valid variant, as format_line takes it. */
  function BuildLine(v: VarId, eaf: Option<real>, fraction: Option<real>,
                     g1000: GenomeReferences.AfSource): Result<FlipOutput>
    requires v.IsValid()
  {
    if v.IsUnambiguous() then BuildUnambiguousLine(v) else BuildAmbiguousLine(v, eaf, fraction, g1000)
  }

  /** Every decision records the variant's ambiguity, never changes the alleles when it
      withholds beta, and withholds beta whenever the frequency was missing. */
  lemma DecisionShape(v: VarId, eaf: Option<real>, fraction: Option<real>, g1000: GenomeReferences.AfSource)
    requires v.IsValid() && BuildLine(v, eaf, fraction, g1000).Ok?
    ensures var fo := BuildLine(v, eaf, fraction, g1000).value;
            && (fo.isAmbiguous <==> !v.IsUnambiguous())
            && (fo.nullBeta ==> !fo.flip && !fo.compliment)
            && (fo.missingAf ==> fo.nullBeta)
  {
    if !v.IsUnambiguous() {
      var f := fraction.value;
      if f < NEVER_COMPLIMENT_THRESHOLD || f > ALWAYS_COMPLIMENT_THRESHOLD {
      } else if v.RefMatch() {
        var af := g1000(v.FormatVarId(v.ref, v.alt)).value;
        assert BuildLine(v, eaf, fraction, g1000).value == WithCorrectRefAf(af, eaf);
      } else {
        var af := g1000(v.FormatVarId(v.alt, v.ref)).value;
        assert BuildLine(v, eaf, fraction, g1000).value == WithIncorrectRefAf(af, eaf);
      }
    }
  }

  /** The point of the harmonisation: whenever beta is kept, the reference allele that is
      emitted is the start of the GRCh37 bases at the variant's position. For ambiguous
      variants this rests on the complement being an involution. */
  lemma EmittedReferenceMatchesGenome(v: VarId, eaf: Option<real>, fraction: Option<real>,
                                      g1000: GenomeReferences.AfSource)
    requires v.WellFormed() && v.IsValid()
    requires BuildLine(v, eaf, fraction, g1000).Ok? && !BuildLine(v, eaf, fraction, g1000).value.nullBeta
    ensures var fo := BuildLine(v, eaf, fraction, g1000).value;
            var emitted := v.FlipAndOrCompliment(fo.flip, fo.compliment);
            emitted.0 == Take(v.actualRef.value, |emitted.0|)
  {
    var fo := BuildLine(v, eaf, fraction, g1000).value;
    var a := v.actualRef.value;
    GetComplimentSpec(v.ref);
    GetComplimentSpec(v.alt);
    if !v.IsUnambiguous() {
      assert v.alt == v.complimentRef.value;
      if v.RefMatch() && fo.compliment {
        ComplimentInvolution(v.ref);
        assert v.complimentAlt.value == v.ref;
      }
    }
  }

  /** The two C/G examples of the design, eaf 0.02 against a population frequency of
      0.03 (agreement) or 0.96 (disagreement), for a reference allele that matched. */
  lemma CorrectRefExamples()
    ensures WithCorrectRefAf(Some(0.03), Some(0.02)) == FlipOutput(false, false, false, false, true)
    ensures WithCorrectRefAf(Some(0.96), Some(0.02)) == FlipOutput(true, true, false, false, true)
    ensures WithCorrectRefAf(Some(0.5), Some(0.02)) == FlipOutput(false, false, true, false, true)
  {
  }

  /** With an undefined dataset fraction every ambiguous variant raises. */
  lemma UndefinedFractionRaises(v: VarId, eaf: Option<real>, g1000: GenomeReferences.AfSource)
    requires v.IsValid() && !v.IsUnambiguous()
    ensures BuildLine(v, eaf, None, g1000).Err?
  {
  }

  /** An empty reference slice passes is_valid, but with non-empty alleles nothing
      matches it, so the decision raises. */
  lemma EmptyReferenceRaises(v: VarId, eaf: Option<real>, fraction: Option<real>, g1000: GenomeReferences.AfSource)
    requires v.WellFormed() && v.IsValid() && v.actualRef.value == ""
    requires |v.ref| > 0 && |v.alt| > 0
    ensures BuildLine(v, eaf, fraction, g1000).Err?
  {
    GetComplimentSpec(v.ref);
    GetComplimentSpec(v.alt);
    assert |v.complimentRef.value| == |v.ref| && |v.complimentAlt.value| == |v.alt|;
  }

  /** A single-base unambiguous variant facing an A, C, G or T never raises. */
  lemma UnambiguousSnvNeverRaises(v: VarId, eaf: Option<real>, fraction: Option<real>,
                                  g1000: GenomeReferences.AfSource)
    requires v.WellFormed() && v.IsValid() && v.IsUnambiguous()
    requires |v.ref| == 1 && |v.alt| == 1
    requires |v.actualRef.value| >= 1 && IsBase(v.actualRef.value[0])
    ensures BuildLine(v, eaf, fraction, g1000).Ok?
  {
    SnvMatchesExactlyOnce(v);
  }

  /** Outside the middle band the dataset fraction alone decides an ambiguous variant:
      below 0.1 it is never complemented, above 0.9 it always is, and the
      allele-frequency table is not consulted. */
  lemma ExtremeFractionDecides(v: VarId, eaf: Option<real>, f: real,
                               g1000: GenomeReferences.AfSource, other: GenomeReferences.AfSource)
    requires v.IsValid() && !v.IsUnambiguous() && (v.RefMatch() || v.AltMatch())
    requires f < NEVER_COMPLIMENT_THRESHOLD || f > ALWAYS_COMPLIMENT_THRESHOLD
    ensures BuildLine(v, eaf, Some(f), g1000) == BuildLine(v, None, Some(f), other)
    ensures var r := BuildLine(v, eaf, Some(f), g1000);
            && r.Ok? && !r.value.nullBeta && !r.value.missingAf
            && (r.value.compliment <==> f > ALWAYS_COMPLIMENT_THRESHOLD)
            && (r.value.flip <==> (v.RefMatch() <==> f > ALWAYS_COMPLIMENT_THRESHOLD))
  {
  }

  /** In the middle band an ambiguous variant keeps beta exactly when the frequency check
      is conclusive, and the lookup of the variant's population frequency can raise. */
  lemma MiddleFractionConsultsFrequency(v: VarId, eaf: Option<real>, f: real, g1000: GenomeReferences.AfSource)
    requires v.IsValid() && !v.IsUnambiguous() && (v.RefMatch() || v.AltMatch())
    requires NEVER_COMPLIMENT_THRESHOLD <= f <= ALWAYS_COMPLIMENT_THRESHOLD
    ensures var key := if v.RefMatch() then v.FormatVarId(v.ref, v.alt) else v.FormatVarId(v.alt, v.ref);
            var af := g1000(key);
            var r := BuildLine(v, eaf, Some(f), g1000);
            && (r.Err? <==> af.Err?)
            && (r.Ok? ==> (r.value.missingAf <==> af.value.None? || eaf.None?))
            && (r.Ok? ==> (r.value.nullBeta <==>
                             (af.value.None? || eaf.None?
                              || (!AfMatch(af.value.value, eaf.value) && !AfNotMatch(af.value.value, eaf.value)))))
            && (r.Ok? && !r.value.nullBeta ==>
                  (r.value.flip <==> AfNotMatch(af.value.value, eaf.value))
                  && (r.value.compliment <==> (v.RefMatch() <==> AfNotMatch(af.value.value, eaf.value))))
  {
  }

  /** What format_line does for one variant: the counters afterwards, and the record to
      write (`None` when nothing is written) or `Err` where it raises. */
  datatype Outcome = Outcome(tally: Tally, written: Result<Option<OutputRecord>>)

  /** What format_line decides for a variant, apart from the counters: `BuildRaised`
      when the flip decision raises; `Harmonised` for a valid variant, with its decision
      and the formatted record (`Err` when formatting raises); `Rejected` for an invalid
      variant, with the record as given. */
  datatype Decision =
    | BuildRaised
    | Harmonised(fo: FlipOutput, record: Result<OutputRecord>)
    | Rejected(record: Result<OutputRecord>)

  function Decide(v: VarId, s: Stats, utils: Utilities, num: Numerics, fraction: Option<real>): Decision {
    if v.IsValid() then
      match BuildLine(v, s.eaf, fraction, GenomeReferences.Getter(utils.g1000))
      case Err => BuildRaised
      case Ok(fo) => Harmonised(fo, LineString(v, s, fo, utils, num))
    else Rejected(LineString(v, s, RAW, utils, num))
  }

  /** How the counters record a decision. A valid variant is counted before its line is
      formatted, so a raise there leaves it counted; an invalid variant is logged as
      skipped once its record is formatted. */
  function Recorded(d: Decision, t: Tally): Outcome {
    match d
    case BuildRaised => Outcome(t, Err)
    case Harmonised(fo, record) =>
      Outcome(Counted(t, fo), if record.Ok? then Ok(Some(record.value)) else Err)
    case Rejected(record) =>
      if record.Ok? then Outcome(Skipped(t, InvalidRecord(record.value)), Ok(None)) else Outcome(t, Err)
  }

  /** LineFlipper.format_line as a function of the counters before the call. */
  function FormatLineOutcome(v: VarId, s: Stats, utils: Utilities, num: Numerics,
                             fraction: Option<real>, t: Tally): Outcome {
    Recorded(Decide(v, s, utils, num, fraction), t)
  }

  /** Recording a decision keeps the counters consistent; it skips a variant exactly
      when nothing is written and nothing raised, and a raise leaves the skip counter
      alone. */
  lemma RecordedSkips(d: Decision, t: Tally)
    ensures var o := Recorded(d, t);
            && (o.written == Ok(None) ==> o.tally.numSkipped == t.numSkipped + 1)
            && (o.written != Ok(None) ==> o.tally.numSkipped == t.numSkipped)
            && (t.Valid() ==> o.tally.Valid())
  {
    match d
    case BuildRaised =>
    case Harmonised(fo, record) => CountedProperties(t, fo);
    case Rejected(record) =>
      if record.Ok? {
        SkippedProperties(t, InvalidRecord(record.value));
      }
  }

  /** A record is written only for a counted variant: the total goes up by one. */
  lemma RecordedWritesCounted(d: Decision, t: Tally)
    requires Recorded(d, t).written.Ok? && Recorded(d, t).written.value.Some?
    ensures d.Harmonised? && d.record.Ok?
    ensures Recorded(d, t).written.value.value == d.record.value
    ensures Recorded(d, t).tally == Counted(t, d.fo)
    ensures Recorded(d, t).tally.numTotal == t.numTotal + 1
  {
    CountedProperties(t, d.fo);
  }

  /** Only valid variants are written; each written one is counted once, and when it
      carries a beta its reference allele is the start of the GRCh37 bases. */
  lemma WrittenRecordIsHarmonised(v: VarId, s: Stats, utils: Utilities, num: Numerics,
                                  fraction: Option<real>, t: Tally)
    requires v.WellFormed()
    requires FormatLineOutcome(v, s, utils, num, fraction, t).written.Ok?
    requires FormatLineOutcome(v, s, utils, num, fraction, t).written.value.Some?
    ensures v.IsValid()
    ensures FormatLineOutcome(v, s, utils, num, fraction, t).tally.numTotal == t.numTotal + 1
    ensures var record := FormatLineOutcome(v, s, utils, num, fraction, t).written.value.value;
            record.beta.Some? ==> record.reference == Take(v.actualRef.value, |record.reference|)
  {
    RecordedWritesCounted(Decide(v, s, utils, num, fraction), t);
    var fo := BuildLine(v, s.eaf, fraction, GenomeReferences.Getter(utils.g1000)).value;
    var record := LineString(v, s, fo, utils, num).value;
    if record.beta.Some? {
      assert !fo.nullBeta;
      EmittedReferenceMatchesGenome(v, s.eaf, fraction, GenomeReferences.Getter(utils.g1000));
    }
  }

  /** LineFlipper(line, utils, fraction, intake_debug).format_line(). */
  method FormatLine(line: Line, utils: Utilities, num: Numerics, fraction: Option<real>, debug: IntakeDebug)
    returns (r: Result<Option<OutputRecord>>)
    modifies debug
    ensures Outcome(debug.State(), r)
            == FormatLineOutcome(line.varId, line.Values(), utils, num, fraction, old(debug.State()))
  {
    var v := line.varId;
    var s := line.Values();
    if v.IsValid() {
      var fo :- BuildLine(v, s.eaf, fraction, GenomeReferences.Getter(utils.g1000));
      debug.Count(fo);
      var record :- LineString(v, s, fo, utils, num);
      return Ok(Some(record));
    } else {
      var record :- LineString(v, s, RAW, utils, num);
      debug.RecordSkip(InvalidRecord(record));
      return Ok(None);
    }
  }
}
