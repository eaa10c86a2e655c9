# Allele harmonisation of GWAS summary statistics

This project models the intake step of a GWAS summary-statistics service, together with the plot layout of its meta-analysis aggregator.

The intake reads a tab-separated file of per-variant statistics. A header line maps the file's columns to the names the pipeline uses. For every line, the intake expands comma-separated reference and alternate allele lists into single pairs. It normalises the chromosome name and reads the GRCh37 bases at the variant's position.

It then decides whether to **flip** each variant (swap reference and alternate) and/or **complement** it (A↔T, C↔G), so that the emitted reference allele is the genome's base:

- Unambiguous variants are decided by which allele, or which allele's complement, the genome shows.
- Ambiguous variants are those whose alternate allele is the complement of the reference. They are decided by a dataset-wide *complement fraction* computed in a first pass over the file. When that fraction is neither low nor high, a population allele-frequency table is consulted as well.

The intake derives missing statistics (beta from the odds ratio, standard error, z-score, minor allele frequency, sample size). It reorients the statistics under a flip, writes one record per harmonised variant, and keeps counters of what it did and what it skipped.

The supporting pieces are modelled too:

- the two reference lookups: the genome slice, and the allele-frequency table with its exact-or-shared-suffix matching;
- the `--colmap` option parser and the sample-size checks;
- the aggregator's chromosome layout along the x axis of the Manhattan plot.

Python values are modelled as follows:

- Python exceptions become `Err` results. Every handler in the source catches all exceptions alike, so which exception was raised does not matter.
- Python floats become `real`.
- `float()`, `int()`, `math.log`, `scipy.stats.norm.ppf` and `np.nextafter(0, 1)` are fields of a `Numerics` value. Every result holds whatever those functions compute.
- A division by a `numpy.float64` (the result of `norm.ppf`, or the standard error computed from it) never raises. A zero divisor gives an infinity or NaN, which is the uninterpreted `Numerics.npOverZero`. Divisions by Python floats raise on zero, as in Python.
- A file is the sequence of strings its successive `readline` calls return.
- A Python `dict` whose iteration order matters is a sequence of key/value pairs with distinct keys (module `Dicts`).

Wherever the source updates state in place, the model does too:

- `IntakeDebug` is a class whose counters `count` and the skip paths update.
- `Line` is a class whose statistics `derive_optional_columns` fills in field by field.
- `DataIntake` is a class storing the complement fraction.
- `ChromosomeLayout` holds the two dictionaries `build_chromosome_map` fills in.

Each loop of the source is a method with its invariants, proved equal to a function that the lemmas reason about.

Where the specification of the service and its code disagree, the model follows the code:

- With an undefined complement fraction (no unambiguous variant in the file), an ambiguous variant raises at `None < 0.1`. It is therefore skipped, not written with a withheld beta (`LineFlipping.UndefinedFractionRaises`).
- `null_beta` withholds only beta; the odds ratio, eaf and z-score are still written (`Lines.NullBetaWithholdsOnlyBeta`).
- `is_valid` only asks for a genome slice to exist, so an empty slice is valid. It then matches nothing and raises (`LineFlipping.EmptyReferenceRaises`).
- A line without a reference or alternate cell raises in `var_id_iterator`, outside the `try` blocks. That aborts the whole run (`DataProcessing.ProcessedAccounted`).
- A missing p-value raises in `line_string` after the variant has been counted, so such a variant is both counted and skipped (`LineSplitting.MissingPValueCountedAndSkipped`).
- Both passes stop at the first `readline` result that is empty, which for a real file is its end.

## Model

| member | source | states |
|---|---|---|
| Text.TrimLeft | hermes_docker/data_processing.py:373 | the left half of `strip()`: a suffix of the input, everything cut off is white space, and the result does not start with white space |
| Text.TrimRight | hermes_docker/data_processing.py:373 | the right half of `strip()`: a prefix of the input, everything cut off is white space, and the result does not end with white space |
| Text.StripIsMiddle | hermes_docker/data_processing.py:373 | `strip()` returns a contiguous middle part of the string with only white space on either side, and the result neither starts nor ends with white space |
| Text.StripIdempotent | hermes_docker/parse_arguments.py:10 | stripping a stripped string changes nothing |
| Text.Upper | hermes_docker/data_processing.py:386-387 | `upper()` keeps the length and upper-cases every character in place |
| Text.ReplaceChar | hermes_docker/data_processing.py:373 | `replace(' ', '_')` keeps the length and replaces exactly the occurrences of the character |
| Text.SplitJoin | hermes_docker/data_processing.py:377 | joining the pieces of `split(sep)` with `sep` gives back the string |
| Text.SplitPiecesFree | hermes_docker/data_processing.py:389-390 | no piece of `split(sep)` contains the separator |
| Text.SplitCount | hermes_docker/data_processing.py:377 | `split(sep)` gives one more piece than there are separators |
| Text.JoinSplit | hermes_docker/genome_references.py:55 | joining separator-free pieces and splitting again gives back the pieces |
| Text.PySliceBounds | hermes_docker/genome_references.py:16 | a Python slice `s[i:j]` has at most `j - i` characters and inside the string is the ordinary subsequence |
| Text.TakeIsSlice | hermes_docker/data_processing.py:190 | `s[:k]` as used by the match predicates is the Python slice from 0 to `k` |
| Text.NatToString | hermes_docker/data_processing.py:208 | `str(n)` of a natural number is a non-empty string of decimal digits |
| Text.IntToString | hermes_docker/data_processing.py:208 | `str(i)` of an integer consists of digits and possibly a minus sign |
| Text.NatToStringRoundTrip | aggregator_docker/plotMetaAnalysis.py:16 | reading back `str(n)` as a decimal number gives `n` |
| Dicts.Get | hermes_docker/data_processing.py:235-236 | a lookup finds a value exactly when the key is present, and with distinct keys it is the value stored under that key |
| Dicts.Put | hermes_docker/parse_arguments.py:10 | `d[k] = v` keeps keys distinct; afterwards `k` gives `v` and every other key gives what it gave before; a new key adds one entry and an existing key adds none; every entry is the new pair or an old one |
| GenomeReferences.GetActualRef | hermes_docker/genome_references.py:14-18 | raises exactly for "XY" without an "X" sequence; none exactly when the chromosome read has no sequence; otherwise at most `ref_length` bases, which are the 1-based slice `seq[pos-1 : pos-1+len]` whenever it lies inside the sequence |
| GenomeReferences.AddEntry | hermes_docker/genome_references.py:32-36 | appending one entry grows the list under its chromosome and position by that entry and leaves every other list unchanged |
| GenomeReferences.VarToAfGroups | hermes_docker/genome_references.py:26-37 | each (chromosome, position) list of the built table holds exactly the items with that chromosome and position, in input order, keeping only the third and fourth key fields |
| GenomeReferences.VarToAfFails | hermes_docker/genome_references.py:31 | building the table raises exactly when some key has fewer than four ':' fields |
| GenomeReferences.GetVarToAf | hermes_docker/genome_references.py:26-37 | the loop that builds the nested dictionary item by item computes the grouped table, or raises on the first malformed key |
| GenomeReferences.PrefixMatchIsSharedSuffix | hermes_docker/genome_references.py:44-47 | `ref_alt_prefix_match` holds exactly when the stored ref and alt are the queried ones extended by one common suffix |
| GenomeReferences.ExactMatchIsPrefixMatch | hermes_docker/genome_references.py:40-47 | an exact match is also a prefix match |
| GenomeReferences.FirstMatchSpec | hermes_docker/genome_references.py:57-59 | the scan finds nothing exactly when no stored entry matches, and otherwise the AF of the first matching entry in stored order |
| GenomeReferences.FirstMatchIsFirst | hermes_docker/genome_references.py:57-59 | the first matching entry is the one whose AF the scan reports |
| GenomeReferences.Get | hermes_docker/genome_references.py:54-59 | `get` raises exactly when the variant does not split into four ':' fields; it returns none exactly when no entry at that chromosome and position matches, and otherwise the AF of the first one that does |
| ParseArguments.BadPiece | hermes_docker/parse_arguments.py:9 | one piece without exactly one '=' makes the option malformed |
| ParseArguments.AssignmentStripped | hermes_docker/parse_arguments.py:10 | the key and value taken from a piece have no surrounding white space |
| ParseArguments.PutKeepsStripped | hermes_docker/parse_arguments.py:10 | storing a stripped pair keeps every stored key and value stripped |
| ParseArguments.PutTracksLast | hermes_docker/parse_arguments.py:10 | after the assignment of one more piece, every key maps to the value its last assignment so far gives it |
| ParseArguments.ColmapStep | hermes_docker/parse_arguments.py:8-10 | one iteration of the loop keeps the loop's invariant: distinct keys, at most one entry per piece, last assignment wins, all stripped |
| ParseArguments.ColmapDone | hermes_docker/parse_arguments.py:5-11 | once every piece is processed, the dictionary is what `parse_colmap` promises for the whole option |
| ParseArguments.ParseColmap | hermes_docker/parse_arguments.py:5-11 | raises exactly when some comma-separated piece (including the only piece of an empty option) does not hold exactly one '='; otherwise the keys are distinct, there are at most as many as pieces, each key maps to the stripped value of its last assignment, and nothing is stored with white space around it |
| ParseArguments.CheckSampleSizes | hermes_docker/parse_arguments.py:39-42 | a dichotomous run is rejected exactly when cases or controls is missing and 'n' or 'ncases' is not mapped; a continuous run exactly when 'n' is not mapped and subjects is missing |
| ParseArguments.AcceptedRunHasCounts | hermes_docker/parse_arguments.py:39-42 | an accepted run without an 'n' column carries both counts (dichotomous) or the subject count (continuous) |
| VariantIdentity.NormalizeChromosomesCases | hermes_docker/data_processing.py:140-150 | "23"→X, "24"→Y, "25"→XY, "26"/"M"/"m"→MT, and every other value unchanged |
| VariantIdentity.NormalizeChromosomesIdempotent | hermes_docker/data_processing.py:140-150 | a normalised chromosome name normalises to itself |
| VariantIdentity.ComplimentBase | hermes_docker/data_processing.py:132-137 | the complement of a base is a base and differs from it |
| VariantIdentity.GetComplimentSpec | hermes_docker/data_processing.py:165-167 | `get_compliment` gives none exactly when some character is outside ACGT, and otherwise a string of the same length with each base complemented in place |
| VariantIdentity.ComplimentInvolution | hermes_docker/data_processing.py:165-167 | complementing twice gives back the alleles |
| VariantIdentity.ComplimentDiffers | hermes_docker/data_processing.py:132-137 | a non-empty allele differs from its complement |
| VariantIdentity.Cell | hermes_docker/data_processing.py:160-161 | `formatted_line[col_map[c]]` succeeds exactly when the column is mapped to an index inside the line, and is then that cell |
| VariantIdentity.VarId.FlipAndOrCompliment | hermes_docker/data_processing.py:201-205 | without complement the emitted pair is the given alleles, swapped under flip; with complement each emitted allele complements back to the given allele it stands for (the reference first unless flipped) |
| VariantIdentity.FlipAndOrComplimentComposes | hermes_docker/data_processing.py:201-205 | a flip swaps the pair that would be emitted without it, and the complemented pair is the base-by-base complement of the uncomplemented one, in both directions |
| VariantIdentity.MakeVarIdSpec | hermes_docker/data_processing.py:152-171 | a constructed VarId keeps the alleles and their complements, the normalised chromosome cell and the parsed position cell, and holds the genome's bases there, no longer than the longer allele; a line without a chromosome or position cell raises |
| VariantIdentity.SnvMatchesExactlyOnce | hermes_docker/data_processing.py:51-63 | a valid single-base unambiguous variant facing a base in ACGT satisfies exactly one of ref_match, ref_compliment, alt_match, alt_compliment |
| VariantIdentity.AmbiguousMatchesAtMostOnce | hermes_docker/data_processing.py:65-69 | a valid ambiguous variant cannot match the genome with both alleles |
| VariantIdentity.FormatVarIdFields | hermes_docker/data_processing.py:207-208 | `chr:pos:ref:alt` splits back into its four fields when none of them holds a ':' |
| VariantIdentity.FormatVarIdTooManyFields | hermes_docker/data_processing.py:207-208 | a ':' inside a field gives more than four fields, so the AF lookup raises |
| LineFlipping.AfChecks | hermes_docker/data_processing.py:74-90 | af_match and af_not_match never both hold; a disagreement is an agreement with the other allele's frequency; a frequency in [0.3, 0.7], bounds included, decides neither way |
| LineFlipping.BuildUnambiguousLine | hermes_docker/data_processing.py:51-63 | raises exactly when none of the four matches holds; never withholds beta or records a missing AF; flips exactly when neither the reference nor its complement matches |
| LineFlipping.BuildAmbiguousLine | hermes_docker/data_processing.py:65-128 | raises when neither allele matches or the fraction is undefined; every decision is marked ambiguous; when beta is kept it flips and complements together after a reference match and does exactly one of them after an alternate match; outside [0.1, 0.9] beta is kept and it complements exactly above 0.9; inside, a kept beta means the AF and eaf exist and the frequency check was conclusive, and it complements exactly when a reference match met disagreeing frequencies or an alternate match agreeing ones |
| LineFlipping.DecisionShape | hermes_docker/data_processing.py:51-128 | every decision records the variant's ambiguity; withholding beta implies neither flip nor complement; a missing AF implies a withheld beta |
| LineFlipping.EmittedReferenceMatchesGenome | hermes_docker/data_processing.py:51-128 | whenever beta is kept, the reference allele emitted under the decision is the start of the GRCh37 bases at the variant's position |
| LineFlipping.UndefinedFractionRaises | hermes_docker/data_processing.py:92-115 | with no dataset fraction every valid ambiguous variant raises |
| LineFlipping.EmptyReferenceRaises | hermes_docker/data_processing.py:183-199 | an empty genome slice passes `is_valid`, and with non-empty alleles the decision then raises |
| LineFlipping.UnambiguousSnvNeverRaises | hermes_docker/data_processing.py:51-63 | a valid single-base unambiguous variant facing a base in ACGT never raises |
| LineFlipping.ExtremeFractionDecides | hermes_docker/data_processing.py:92-115 | below 0.1 an ambiguous variant is never complemented, above 0.9 always; it flips exactly when the matching allele and the band disagree; beta is kept; neither the AF table nor the eaf is consulted |
| LineFlipping.MiddleFractionConsultsFrequency | hermes_docker/data_processing.py:97-128 | in [0.1, 0.9] the decision raises exactly when the AF lookup of the matching orientation raises; it records a missing AF exactly when the AF or the eaf is absent; it withholds beta exactly then or when the frequency check is inconclusive; otherwise it flips exactly when the frequencies disagree, and complements exactly when that disagreement coincides with a reference match |
| LineFlipping.CorrectRefExamples | hermes_docker/data_processing.py:101-109 | for a matching reference allele with eaf 0.02: population AF 0.03 gives no flip and no complement, 0.96 gives flip and complement, 0.5 withholds beta without a missing AF |
| LineFlipping.RecordedSkips | hermes_docker/data_processing.py:35-49 | a variant is skipped (counter up by one) exactly when nothing is written and nothing raised; the counters stay consistent |
| LineFlipping.RecordedWritesCounted | hermes_docker/data_processing.py:41-43 | a record is written only for a harmonised variant, and it is the formatted record of its decision, counted once |
| LineFlipping.WrittenRecordIsHarmonised | hermes_docker/data_processing.py:35-43 | only valid variants are written, each is counted once, and a written record that carries a beta has the genome's base as its reference allele |
| LineFlipping.FormatLine | hermes_docker/data_processing.py:35-49 | `format_line` updates the counters and returns the record (or nothing, or a raise) exactly as the decision it takes prescribes |
| Lines.OptionalFloatColumn | hermes_docker/data_processing.py:234-238 | an unmapped column is absent; a mapped one raises exactly when the cell is missing or neither a null token nor a float; a present value is the parsed cell |
| Lines.ReadColumns | hermes_docker/data_processing.py:220-228 | the columns are read as `optional_float_column` gives them, maf and zScore start absent, and reading raises exactly when one of the seven column reads raises |
| Lines.InferEffN | hermes_docker/data_processing.py:240-244 | for a dichotomous trait it raises exactly when a count is missing, zero or the reciprocals cancel, and otherwise gives the n with n·(1/cases + 1/controls) = 4; for a continuous trait it is the subject count, absent when none is given |
| Lines.EffectiveSampleSizePositive | hermes_docker/data_processing.py:242 | positive case and control counts give a positive effective sample size |
| Lines.DeriveKeepsGiven | hermes_docker/data_processing.py:246-256 | derivation only fills in absent fields: every field present before keeps its value, and pValue, oddsRatio, eaf and ncases never change |
| Lines.DeriveMafBounds | hermes_docker/data_processing.py:253-254 | a derived maf is the eaf or 1 − eaf and at most 0.5, and is non-negative for an eaf in [0, 1] |
| Lines.DeriveZeroBeta | hermes_docker/data_processing.py:249-252 | a zero beta with a p-value gets standard error 1.0 and z-score 0 without consulting ppf |
| Lines.DeriveZScoreIsRatio | hermes_docker/data_processing.py:251-252 | after derivation a z-score is present exactly with beta and the standard error, and it is their quotient (numpy's value for a zero derived standard error) |
| Lines.DeriveFailures | hermes_docker/data_processing.py:247-256 | derivation raises exactly for a non-positive odds ratio to take the log of, for a zero standard error read from the file next to a beta, and for a sample size infer_eff_n cannot compute; a derived standard error, even at p = 1, never makes it raise |
| Lines.DeriveValues | hermes_docker/data_processing.py:246-256 | the filled-in values: beta = log(oddsRatio); standard error 1.0 for a zero beta and otherwise numpy's -abs(beta) / ppf(p / 2); none without beta or p-value; n as infer_eff_n gives it |
| Lines.FlipTwiceRestores | hermes_docker/data_processing.py:258-272 | applying the flipped getters twice restores beta, odds ratio, eaf and z-score |
| Lines.UnflippedIsIdentity | hermes_docker/data_processing.py:258-272 | without flip or null_beta the getters report the statistics unchanged |
| Lines.NullBetaWithholdsOnlyBeta | hermes_docker/data_processing.py:258-272 | null_beta withholds beta and leaves the odds ratio, eaf and z-score as they would be without it |
| Lines.LineString | hermes_docker/data_processing.py:274-297 | the record carries the flipped/complemented alleles, their `chr:pos:ref:alt` id, the chromosome, position and multiallelic flag, the reoriented statistics and the others as they are; a p-value ≤ 0 is replaced by the positive constant; it raises when the p-value is absent and succeeds when the id is well formed, the p-value is present and the odds-ratio getter succeeds |
| Lines.Line.constructor | hermes_docker/data_processing.py:214-228 | the fields are the columns read, with maf and zScore absent |
| Lines.Line.DeriveOptionalColumns | hermes_docker/data_processing.py:246-256 | the in-place derivation succeeds exactly when the derivation function does, and leaves exactly its result in the fields |
| Lines.Line.SetBeta | hermes_docker/data_processing.py:247-248 | beta from the log of the odds ratio, raising for a non-positive ratio |
| Lines.Line.SetStdErr | hermes_docker/data_processing.py:249-250 | the standard error from beta and the p-value, through numpy's division, which never raises |
| Lines.Line.SetZScore | hermes_docker/data_processing.py:251-252 | the z-score from beta and the standard error, raising only for a zero standard error read from the file |
| Lines.Line.SetMaf | hermes_docker/data_processing.py:253-254 | the maf from the eaf |
| Lines.Line.SetN | hermes_docker/data_processing.py:255-256 | the sample size inferred when absent |
| Lines.NewLine | hermes_docker/data_processing.py:214-229 | constructing a Line succeeds exactly when reading and deriving do, and gives a fresh object holding the derived statistics |
| IntakeCounters.EmptyValid | hermes_docker/data_processing.py:314-326 | the counters start consistent |
| IntakeCounters.CountedProperties | hermes_docker/data_processing.py:342-359 | `count` raises num_total by one and exactly one of num_ambiguous / num_unambiguous by one, leaves the skip bookkeeping alone and keeps every sub-counter within its parent |
| IntakeCounters.SkippedProperties | hermes_docker/data_processing.py:46-48 | a skip raises num_skipped by one, logs the entry exactly while the log is below 100000 entries, and moves no other counter |
| IntakeCounters.IntakeDebug.constructor | hermes_docker/data_processing.py:314-326 | every counter starts at zero with an empty log |
| IntakeCounters.IntakeDebug.Count | hermes_docker/data_processing.py:342-359 | the in-place `count` leaves exactly the counted state and keeps the counters consistent |
| IntakeCounters.IntakeDebug.RecordSkip | hermes_docker/data_processing.py:418-421 | the in-place skip bookkeeping leaves exactly the skipped state and keeps the counters consistent |
| LineSplitting.NormalizedColumn | hermes_docker/data_processing.py:372-373 | a normalised column holds no space, is no longer than the input and has no white space at either end |
| LineSplitting.SplitLine | hermes_docker/data_processing.py:376-377 | a line has one column more than it has tabs |
| LineSplitting.HeaderMapLookup | hermes_docker/data_processing.py:381 | looking a header name up in the inverted column map is the search for the last entry naming it |
| LineSplitting.HeaderMapInverts | hermes_docker/data_processing.py:381 | a header name is absent from the inverted map exactly when no column maps to it, and otherwise gives the last column that does |
| LineSplitting.IndexColumnsFindsLast | hermes_docker/data_processing.py:382 | a column name is mapped exactly when some header column stands for it, and then to the index of the last such column |
| LineSplitting.GetColMapSpec | hermes_docker/data_processing.py:379-382 | a column name is found only at a header column the column map names for it, inside the header, and a name given to no header column is not found |
| LineSplitting.CrossProduct | hermes_docker/data_processing.py:389-391 | the nested loops yield one pair per (ref piece, alt piece) |
| LineSplitting.CrossProductOrder | hermes_docker/data_processing.py:389-391 | the pair (refs[i], alts[j]) is yielded at position i·|alts| + j: ref-major, alt-minor |
| LineSplitting.VarIdIterator | hermes_docker/data_processing.py:384-391 | raises exactly when the line has no reference or alternate cell; otherwise it yields |refs|·|alts| expansions carrying the split line |
| LineSplitting.VarIdIteratorYields | hermes_docker/data_processing.py:384-391 | each yielded pair is the upper-cased comma pieces in ref-major order, holds no comma, and is multiallelic exactly when either list has more than one piece |
| LineSplitting.TalliesFrom | hermes_docker/data_processing.py:396-402 | the complementary count never exceeds the unambiguous count, which never exceeds the number of variants |
| LineSplitting.ComplimentCounts | hermes_docker/data_processing.py:393-406 | a line's counts raise exactly where var_id_iterator raises, and are bounded by the number of expansions |
| LineSplitting.NumberOfCompliments | hermes_docker/data_processing.py:393-406 | `number_of_compliments` computes the line's counts |
| LineSplitting.CountCompliments | hermes_docker/data_processing.py:396-402 | the accumulator loop sums the per-variant counts, ignoring variants whose construction raises |
| LineSplitting.ClassifyExpansion | hermes_docker/data_processing.py:397-402 | one for an unambiguous variant, and one more for one the genome shows complemented |
| LineSplitting.AppliedAccounted | hermes_docker/data_processing.py:410-421 | the try block writes at most one record, and exactly one of writing and skipping happens; the counters stay consistent |
| LineSplitting.MissingPValueCountedAndSkipped | hermes_docker/data_processing.py:410-421 | a valid variant without a p-value is counted by format_line, then its line_string raises, so write_lines logs a skip as well and writes nothing |
| LineSplitting.WriteEffectAccounted | hermes_docker/data_processing.py:409-421 | over a line's expansions, records written plus skips added equals the number of expansions |
| LineSplitting.LineEffectAccounted | hermes_docker/data_processing.py:408-421 | a line `write_lines` does not raise on yields one record or one skip per expansion |
| LineSplitting.WriteExpansion | hermes_docker/data_processing.py:410-421 | the try block for one expansion updates the counters and writes exactly as the per-expansion effect prescribes |
| LineSplitting.WriteLines | hermes_docker/data_processing.py:408-422 | `write_lines` raises exactly where var_id_iterator raises, leaving the counters untouched, and otherwise leaves the counters and writes the records of the line's effect |
| LineSplitting.WriteExpansions | hermes_docker/data_processing.py:409-421 | the loop over the expansions produces the counters and the records of the effect of the whole line |
| DataProcessing.ReadLine | hermes_docker/data_processing.py:447-452 | `readline` gives the next line, or "" past the end of the file |
| DataProcessing.PassOneBounded | hermes_docker/data_processing.py:448-451 | summing line counts whose complementary part is within the unambiguous part keeps the file's counts so |
| DataProcessing.CounterBounded | hermes_docker/data_processing.py:393-406 | no line ever has more complementary than unambiguous variants |
| DataProcessing.FractionInUnitInterval | hermes_docker/data_processing.py:454-455 | the fraction is absent exactly when no variant was unambiguous, and otherwise lies in [0, 1] |
| DataProcessing.CrashesAgree | hermes_docker/data_processing.py:439-476 | when the per-line steps of both passes raise on the same lines, the second pass stops on a raise exactly when the first one does |
| DataProcessing.LineCrashesAgree | hermes_docker/data_processing.py:384-387 | `number_of_compliments` and `write_lines` raise on the same lines: those var_id_iterator cannot read |
| DataProcessing.WriterAccounted | hermes_docker/data_processing.py:408-421 | every line `write_lines` does not raise on is accounted for, expansion by expansion |
| DataProcessing.PassTwoAccounted | hermes_docker/data_processing.py:472-476 | in a second pass that does not raise, records written plus skips added equals the number of expansions of the file; the skip counter never decreases and the counters stay consistent |
| DataProcessing.ProcessedAccounted | hermes_docker/data_processing.py:457-476 | a run without a fraction raises exactly when its first pass does, and then writes nothing and leaves the counters as they were; otherwise each expansion is written or skipped; the computed fraction lies in [0, 1]; the counters stay consistent |
| DataProcessing.DataIntake.constructor | hermes_docker/data_processing.py:426-429 | the fraction starts unset |
| DataProcessing.DataIntake.GenerateDatasetComplimentFraction | hermes_docker/data_processing.py:431-455 | the first pass raises exactly when its sum does; the fraction becomes the ratio of the counts when some variant is unambiguous, and stays as it was otherwise |
| DataProcessing.DataIntake.CountLines | hermes_docker/data_processing.py:445-452 | the while loop over `readline` computes the first-pass sum |
| DataProcessing.DataIntake.ProcessFile | hermes_docker/data_processing.py:457-476 | `process_file` runs the first pass only while the fraction is unset, and leaves the fraction, the counters and the written records the run prescribes |
| DataProcessing.DataIntake.WriteFile | hermes_docker/data_processing.py:470-476 | the while loop over `readline` leaves the counters and the records of the second pass and stops at the first raise |
| PlotMetaAnalysis.ChromosomesListed | aggregator_docker/plotMetaAnalysis.py:16 | the chromosome list is `str(i + 1)` for i below 22, then "X" and "Y" |
| PlotMetaAnalysis.ChromosomeNames | aggregator_docker/plotMetaAnalysis.py:16 | the first 22 names are the decimal numbers 1 to 22, the last two are "X" and "Y" |
| PlotMetaAnalysis.ChromosomesDistinct | aggregator_docker/plotMetaAnalysis.py:16 | no chromosome is listed twice |
| PlotMetaAnalysis.RenamedNotListed | aggregator_docker/plotMetaAnalysis.py:51 | "23" and "24" are not listed chromosome names |
| PlotMetaAnalysis.ChromosomeMapSpec | aggregator_docker/plotMetaAnalysis.py:51 | the name map covers the listed chromosomes plus "23" and "24", sends "23"→X and "24"→Y, and every listed chromosome to itself |
| PlotMetaAnalysis.OffsetsIncrease | aggregator_docker/plotMetaAnalysis.py:58-64 | the first chromosome starts at 0 and each starts strictly after the ones before it |
| PlotMetaAnalysis.XtickWithinChromosome | aggregator_docker/plotMetaAnalysis.py:61 | a tick `x + len // 2` lies at or after its chromosome's start and before the next one's |
| PlotMetaAnalysis.TicksBeforeEnd | aggregator_docker/plotMetaAnalysis.py:124 | every tick lies before the end of the last chromosome |
| PlotMetaAnalysis.AdjacentColoursDiffer | aggregator_docker/plotMetaAnalysis.py:60 | neighbouring chromosomes get different colours |
| PlotMetaAnalysis.ChromosomeLayout.constructor | aggregator_docker/plotMetaAnalysis.py:47-48 | both dictionaries start empty |
| PlotMetaAnalysis.ChromosomeLayout.BuildChromosomeMap | aggregator_docker/plotMetaAnalysis.py:54-64 | each chromosome's frame is its name, the sum of the lengths before it and the colour `COLORS[i % 6]`, and its tick is that start plus half its length; the only other keys are the ones there before, and their entries are unchanged |
| PlotMetaAnalysis.ChromosomeLayout.XMaxIsTotal | aggregator_docker/plotMetaAnalysis.py:128 | once the layout is built, `xmax` is the sum of all chromosome lengths and lies past every tick |

## Left out

- File handling: opening plain and gzip files, decoding, and writing the output file. A file is the sequence of `readline` results; the records written are returned as a sequence.
- Output format: `json.dumps` of a record (the record is a datatype with the same fields), every `print`, `IntakeDebug.__str__` and `IntakeDebug.write_log`. They only format or write text.
- Log file: the `log_name` field of `IntakeDebug`, which is only used by `write_log`.
- Floating point: Python floats are `real`, so rounding, infinities and NaN are not modelled. A "nan" cell that `float()` accepts is whatever `Numerics.parseFloat` gives. An infinite or NaN value (from `norm.ppf` at 0, or `Numerics.npOverZero`) is an arbitrary real, so later arithmetic on it, such as the z-score beta / -inf = -0.0 at p = 1, is not the IEEE result; which lines are written and skipped does not depend on it.
- Numeric library functions: `float()`, `int()`, `math.log`, `norm.ppf`, `np.nextafter(0, 1)` and numpy's quotient by zero are parameters. Only their failure cases are modelled: ValueError from parsing, `log` of a non-positive ratio, and a division by zero among Python floats (`1/cases`, `1/controls`, `4/(…)`, `1/oddsRatio`, and beta over a standard error read from the file).
- Loading the references: reading the FASTA file with Bio.SeqIO and loading the JSON allele-frequency file. The sequences and the JSON items arrive as values, in file order. The constructors of `FaFinder`, `G1000Reference` and `IntakeUtilities` therefore reduce to the `Utilities` datatype.
- `LineSplitter` as an object: its only state is the column map computed from the header, which the model passes around as a value.
- `Line.is_valid`: it is a pass-through to `VarId.is_valid`, so it has no separate model.
- `get_col_map`: the `if v is not None` filter is not modelled. The column map always comes from `parse_colmap`, whose values are strings, so the filter keeps every entry.
- Text.Upper: handles ASCII letters only. Python's `upper()` also maps other Unicode letters. Allele cells are expected to be ASCII.
- Text.TrimLeft: the set of characters `strip()` removes is Python's `isspace` set for the code points listed in `Text.IsSpace`. Unicode property lookups are not modelled.
- `parse_args` apart from `parse_colmap` and the checks: argparse, `Path` suffix and stem handling, and `mkdir`. These are library calls.
- Aggregator, apart from the chromosome layout: `get_input_output`, the pandas and matplotlib plotting, the statsmodels QQ plot and the `aws` subprocess calls in `main`.
- Modules outside the intake core: `hermes_docker/data_filtering.py` (Spark filtering), `hermes_docker/qc_plots.py`, `hermes_docker/main.py`, `hermes_docker/s3_utils.py` and `dataregistry/api/api.py`. They are orchestration, plotting and network I/O.
- Exception types: one `Err` stands for any exception, since every handler in the source catches all of them alike.
