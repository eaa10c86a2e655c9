/** VarId: one reference/alternate pair of a summary-statistics line, with its
    normalised chromosome, its position, the complements of both alleles and the
    GRCh37 bases found at that position. */
module VariantIdentity {
  import opened Wrappers
  import opened Text
  import opened Dicts
  import GenomeReferences
  import opened IntakeUtilities

  /** VarId.normalize_chromosomes. */
  function NormalizeChromosomes(value: string): string {
    if value == "23" then "X"
    else if value == "24" then "Y"
    else if value == "25" then "XY"
    else if value == "26" || value == "M" || value == "m" then "MT"
    else value
  }

  /** Numeric and mitochondrial aliases go to the names the reference uses; every other
      value is kept as it is. */
  lemma NormalizeChromosomesCases(value: string)
    ensures value == "23" ==> NormalizeChromosomes(value) == "X"
    ensures value == "24" ==> NormalizeChromosomes(value) == "Y"
    ensures value == "25" ==> NormalizeChromosomes(value) == "XY"
    ensures value == "26" || value == "M" || value == "m" ==> NormalizeChromosomes(value) == "MT"
    ensures value !in ["23", "24", "25", "26", "M", "m"] ==> NormalizeChromosomes(value) == value
  {
  }

  /** A normalised name needs no further normalisation. */
  lemma NormalizeChromosomesIdempotent(value: string)
    ensures NormalizeChromosomes(NormalizeChromosomes(value)) == NormalizeChromosomes(value)
  {
    var r := NormalizeChromosomes(value);
    NormalizeChromosomesCases(value);
    NormalizeChromosomesCases(r);
    if r == "X" || r == "Y" || r == "XY" || r == "MT" {
      assert r !in ["23", "24", "25", "26", "M", "m"];
    }
  }

  /** A key of VarId.compliment. */
  predicate IsBase(c: char) {
    c == 'A' || c == 'T' || c == 'C' || c == 'G'
  }

  /** VarId.compliment: A and T swap, C and G swap. */
  function ComplimentBase(c: char): (r: char)
    requires IsBase(c)
    ensures IsBase(r) && r != c
  {
    match c
    case 'A' => 'T'
    case 'T' => 'A'
    case 'C' => 'G'
    case 'G' => 'C'
  }

  /** VarId.get_compliment: the base-by-base complement, or nothing when some
      character is not one of A, C, G, T. */
  function GetCompliment(bases: string): Option<string>
    decreases |bases|
  {
    if |bases| == 0 then Some("")
    else if !IsBase(bases[0]) then None
    else
      match GetCompliment(bases[1..])
      case None => None
      case Some(rest) => Some([ComplimentBase(bases[0])] + rest)
  }

  /** The complement exists exactly when every character is a base, and then it has the
      same length with each base complemented in place. */
  lemma {:induction false} GetComplimentSpec(bases: string)
    ensures GetCompliment(bases).None? <==> exists i :: 0 <= i < |bases| && !IsBase(bases[i])
    ensures GetCompliment(bases).Some? ==>
              |GetCompliment(bases).value| == |bases|
              && forall i :: 0 <= i < |bases| ==> IsBase(bases[i]) && GetCompliment(bases).value[i] == ComplimentBase(bases[i])
    decreases |bases|
  {
    if |bases| > 0 {
      var tail := bases[1..];
      GetComplimentSpec(tail);
      assert forall i :: 1 <= i < |bases| ==> bases[i] == tail[i - 1];
      if IsBase(bases[0]) && GetCompliment(tail).None? {
        var i :| 0 <= i < |tail| && !IsBase(tail[i]);
        assert !IsBase(bases[i + 1]);
      }
    }
  }

  /** Complementing is an involution: the complement of a complement is the original. */
  lemma ComplimentInvolution(bases: string)
    requires GetCompliment(bases).Some?
    ensures GetCompliment(GetCompliment(bases).value) == Some(bases)
  {
    var c := GetCompliment(bases).value;
    GetComplimentSpec(bases);
    GetComplimentSpec(c);
    assert forall i :: 0 <= i < |c| ==> IsBase(c[i]);
    var cc := GetCompliment(c).value;
    forall i | 0 <= i < |bases|
      ensures cc[i] == bases[i]
    {
      assert cc[i] == ComplimentBase(ComplimentBase(bases[i]));
    }
    assert cc == bases;
  }

  /** No base is its own complement, so a non-empty allele differs from its complement. */
  lemma ComplimentDiffers(bases: string)
    requires GetCompliment(bases).Some? && |bases| > 0
    ensures GetCompliment(bases).value != bases
  {
    GetComplimentSpec(bases);
    assert GetCompliment(bases).value[0] != bases[0];
  }

  /** `formatted_line[col_map[column]]`: a KeyError when the column is not mapped and an
      IndexError when the line is too short. */
  function Cell(formattedLine: seq<string>, colMap: Dict<int>, column: string): (r: Result<string>)
    ensures r.Ok? <==> HasKey(colMap, column) && 0 <= Get(colMap, column).value < |formattedLine|
    ensures r.Ok? ==> r.value == formattedLine[Get(colMap, column).value]
  {
    var found := Get(colMap, column);
    if found.Some? && 0 <= found.value < |formattedLine| then Ok(formattedLine[found.value]) else Err
  }

  function Max(a: int, b: int): (r: int)
    ensures r >= a && r >= b && (r == a || r == b)
  {
    if a >= b then a else b
  }

  datatype VarId = VarId(
    ref: string,
    alt: string,
    complimentRef: Option<string>,
    complimentAlt: Option<string>,
    multiallelic: bool,
    normChr: string,
    position: int,
    actualRef: Option<string>)
  {
    /** The complements are those of the alleles, as VarId.__init__ computes them. */
    predicate WellFormed() {
      complimentRef == GetCompliment(ref) && complimentAlt == GetCompliment(alt)
    }

    /** VarId.is_unambiguous: both alleles have complements and the alternate allele is
        not the complement of the reference allele. */
    predicate IsUnambiguous() {
      complimentRef.Some? && complimentAlt.Some? && alt != complimentRef.value
    }

    /** VarId.is_complimentary: the genome shows the complement of one of the alleles. */
    predicate IsComplimentary() {
      actualRef.Some?
      && (complimentRef == Some(Take(actualRef.value, |ref|))
          || complimentAlt == Some(Take(actualRef.value, |alt|)))
    }

    /** VarId.is_valid. An empty reference slice is valid. */
    predicate IsValid() {
      ref != alt && complimentRef.Some? && complimentAlt.Some? && actualRef.Some?
    }

    /** VarId.ref_match, ref_compliment, alt_match and alt_compliment: an allele (or its
        complement) is the start of the genome's bases. */
    predicate RefMatch()
      requires actualRef.Some?
    {
      ref == Take(actualRef.value, |ref|)
    }

    predicate RefCompliment()
      requires actualRef.Some?
    {
      complimentRef == Some(Take(actualRef.value, |ref|))
    }

    predicate AltMatch()
      requires actualRef.Some?
    {
      alt == Take(actualRef.value, |alt|)
    }

    predicate AltCompliment()
      requires actualRef.Some?
    {
      complimentAlt == Some(Take(actualRef.value, |alt|))
    }

    /** VarId.flip_and_or_compliment: the (reference, alternate) pair to emit. It is only
        ever asked for complements that exist. Without complement it is the given pair,
        swapped under flip. With complement, each emitted allele complements back to the
        given allele it stands for: the reference (alternate) one unflipped, the other
        one flipped. */
    function FlipAndOrCompliment(flip: bool, compliment: bool): (r: (string, string))
      requires compliment ==> complimentRef.Some? && complimentAlt.Some?
      ensures !compliment ==> r == (if flip then (alt, ref) else (ref, alt))
      ensures WellFormed() && compliment ==>
                GetCompliment(r.0) == Some(if flip then alt else ref)
                && GetCompliment(r.1) == Some(if flip then ref else alt)
    {
      if !compliment then (if flip then (alt, ref) else (ref, alt))
      else
        var pair := if flip then (complimentAlt.value, complimentRef.value)
                    else (complimentRef.value, complimentAlt.value);
        if WellFormed() then ComplimentInvolution(ref); ComplimentInvolution(alt); pair else pair
    }

    /** VarId.format_var_id: `chromosome:position:ref:alt`. */
    function FormatVarId(r: string, a: string): string {
      Join([normChr, IntToString(position), r, a], ':')
    }
  }

  /** VarId.__init__: the chromosome and position columns must be mapped and present,
      the position must parse as an integer, and an "XY" variant needs an "X" sequence.
      The genome is read for as many bases as the longer allele. */
  function MakeVarId(ref: string, alt: string, formattedLine: seq<string>, multiallelic: bool,
                     colMap: Dict<int>, utils: Utilities, num: Numerics): Result<VarId>
  {
    var chromosome :- Cell(formattedLine, colMap, "chromosome");
    var normChr := NormalizeChromosomes(chromosome);
    var positionText :- Cell(formattedLine, colMap, "position");
    var position :- num.parseInt(positionText).ToResult();
    var actualRef :- GenomeReferences.GetActualRef(utils.fa, normChr, position, Max(|ref|, |alt|));
    Ok(VarId(ref, alt, GetCompliment(ref), GetCompliment(alt), multiallelic, normChr, position, actualRef))
  }

  /** What a constructed VarId holds: the alleles as given with their complements, the
      normalised chromosome cell, the parsed position cell and the genome's bases there,
      no longer than the longer allele. A line without a chromosome or position cell
      raises. */
  lemma MakeVarIdSpec(ref: string, alt: string, formattedLine: seq<string>, multiallelic: bool,
                      colMap: Dict<int>, utils: Utilities, num: Numerics)
    ensures var r := MakeVarId(ref, alt, formattedLine, multiallelic, colMap, utils, num);
            r.Ok? ==> r.value.WellFormed() && r.value.ref == ref && r.value.alt == alt
                      && r.value.multiallelic == multiallelic
    ensures var r := MakeVarId(ref, alt, formattedLine, multiallelic, colMap, utils, num);
            r.Ok? ==> Cell(formattedLine, colMap, "chromosome").Ok?
                      && r.value.normChr == NormalizeChromosomes(Cell(formattedLine, colMap, "chromosome").value)
    ensures var r := MakeVarId(ref, alt, formattedLine, multiallelic, colMap, utils, num);
            r.Ok? ==> Cell(formattedLine, colMap, "position").Ok?
                      && num.parseInt(Cell(formattedLine, colMap, "position").value) == Some(r.value.position)
    ensures var r := MakeVarId(ref, alt, formattedLine, multiallelic, colMap, utils, num);
            r.Ok? ==> GenomeReferences.GetActualRef(utils.fa, r.value.normChr, r.value.position, Max(|ref|, |alt|))
                      == Ok(r.value.actualRef)
    ensures var r := MakeVarId(ref, alt, formattedLine, multiallelic, colMap, utils, num);
            r.Ok? && r.value.actualRef.Some? ==> |r.value.actualRef.value| <= Max(|ref|, |alt|)
    ensures Cell(formattedLine, colMap, "chromosome").Err? || Cell(formattedLine, colMap, "position").Err?
            ==> MakeVarId(ref, alt, formattedLine, multiallelic, colMap, utils, num).Err?
  {
  }

  /** A single-base variant whose alleles are distinct bases that are not each other's
      complement, facing a genome base in ACGT, matches in exactly one of the four ways:
      the four candidate bases are all different. */
  lemma SnvMatchesExactlyOnce(v: VarId)
    requires v.WellFormed() && v.IsValid() && v.IsUnambiguous()
    requires |v.ref| == 1 && |v.alt| == 1
    requires |v.actualRef.value| >= 1 && IsBase(v.actualRef.value[0])
    ensures (if v.RefMatch() then 1 else 0) + (if v.RefCompliment() then 1 else 0)
            + (if v.AltMatch() then 1 else 0) + (if v.AltCompliment() then 1 else 0) == 1
  {
    var a := v.actualRef.value;
    var r, l := v.ref[0], v.alt[0];
    GetComplimentSpec(v.ref);
    GetComplimentSpec(v.alt);
    assert Take(a, 1) == [a[0]];
    assert v.ref == [r] && v.alt == [l];
    assert v.complimentRef.value == [ComplimentBase(r)];
    assert v.complimentAlt.value == [ComplimentBase(l)];
    assert l != ComplimentBase(r);
  }

  /** For a valid ambiguous variant (the alternate allele is the reference allele's
      complement), the genome cannot match both alleles. */
  lemma AmbiguousMatchesAtMostOnce(v: VarId)
    requires v.WellFormed() && v.IsValid() && !v.IsUnambiguous()
    ensures !(v.RefMatch() && v.AltMatch())
  {
    GetComplimentSpec(v.ref);
    assert v.alt == v.complimentRef.value;
    assert |v.alt| == |v.ref|;
  }

  /** Flipping and complementing commute into one another: a flip swaps whatever pair
      would be emitted without it, and, for a well-formed variant, the complemented pair
      is the base-by-base complement of the uncomplemented one. */
  lemma FlipAndOrComplimentComposes(v: VarId, flip: bool)
    requires v.WellFormed() && v.complimentRef.Some? && v.complimentAlt.Some?
    ensures forall c: bool :: v.FlipAndOrCompliment(true, c)
                              == (v.FlipAndOrCompliment(false, c).1, v.FlipAndOrCompliment(false, c).0)
    ensures GetCompliment(v.FlipAndOrCompliment(flip, false).0) == Some(v.FlipAndOrCompliment(flip, true).0)
    ensures GetCompliment(v.FlipAndOrCompliment(flip, false).1) == Some(v.FlipAndOrCompliment(flip, true).1)
    ensures GetCompliment(v.FlipAndOrCompliment(flip, true).0) == Some(v.FlipAndOrCompliment(flip, false).0)
    ensures GetCompliment(v.FlipAndOrCompliment(flip, true).1) == Some(v.FlipAndOrCompliment(flip, false).1)
  {
  }

  /** The variant id's four ':'-separated fields are the chromosome, the position and the
      two alleles, provided none of them holds a ':'. */
  lemma FormatVarIdFields(v: VarId, r: string, a: string)
    requires ':' !in v.normChr && ':' !in r && ':' !in a
    ensures Split(v.FormatVarId(r, a), ':') == [v.normChr, IntToString(v.position), r, a]
  {
    var parts := [v.normChr, IntToString(v.position), r, a];
    assert ':' !in IntToString(v.position);
    JoinSplit(parts, ':');
  }

  /** A ':' inside a field gives the variant id more than four fields, so the
      allele-frequency lookup raises. */
  lemma FormatVarIdTooManyFields(v: VarId, r: string, a: string)
    requires ':' in v.normChr || ':' in r || ':' in a
    ensures |Split(v.FormatVarId(r, a), ':')| > 4
  {
    var p := IntToString(v.position);
    assert ':' !in p;
    var s := v.FormatVarId(r, a);
    assert s == v.normChr + [':'] + (p + [':'] + (r + [':'] + a)) by {
      assert [v.normChr, p, r, a][1..] == [p, r, a];
      assert [p, r, a][1..] == [r, a];
      assert [r, a][1..] == [a];
      assert Join([a], ':') == a;
      assert Join([r, a], ':') == r + [':'] + a;
      assert Join([p, r, a], ':') == p + [':'] + (r + [':'] + a);
    }
    CountAppend(v.normChr + [':'], p + [':'] + (r + [':'] + a), ':');
    CountAppend(v.normChr, [':'], ':');
    CountAppend(p + [':'], r + [':'] + a, ':');
    CountAppend(p, [':'], ':');
    CountAppend(r + [':'], a, ':');
    CountAppend(r, [':'], ':');
    CountZero(p, ':');
    CountZero(v.normChr, ':');
    CountZero(r, ':');
    CountZero(a, ':');
    assert Count([':'], ':') == 1;
    SplitCount(s, ':');
  }
}
