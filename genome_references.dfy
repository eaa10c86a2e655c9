/** The two reference lookups the harmonisation engine consults: the GRCh37 sequence
    (FaFinder) and the population allele-frequency table (G1000Reference). Loading the
    FASTA and the JSON file is outside the model; both arrive as already parsed values. */
module GenomeReferences {
  import opened Wrappers
  import opened Text

  /** FaFinder.fa_dict: chromosome id to its sequence. */
  type FastaDict = map<string, string>

  /** The sequence a chromosome is read from: "XY" is read from "X". */
  function ReadChromosome(chromosome: string): string {
    if chromosome == "XY" then "X" else chromosome
  }

  /** FaFinder.get_actual_ref: the 1-based slice of `refLength` bases at `position`.
      A chromosome with no sequence gives no reference; "XY" with no "X" sequence
      raises (the dictionary lookup fails). */
  function GetActualRef(fa: FastaDict, chromosome: string, position: int, refLength: int)
    : (r: Result<Option<string>>)
    ensures r.Err? <==> chromosome == "XY" && "X" !in fa
    ensures r.Ok? ==> (r.value.None? <==> ReadChromosome(chromosome) !in fa)
    ensures r.Ok? && r.value.Some? && refLength >= 0 ==> |r.value.value| <= refLength
    ensures r.Ok? && r.value.Some? && refLength >= 0 && 1 <= position
            && position - 1 + refLength <= |fa[ReadChromosome(chromosome)]|
            ==> r.value.value == fa[ReadChromosome(chromosome)][position - 1..position - 1 + refLength]
  {
    var start, stop := position - 1, position - 1 + refLength;
    if chromosome == "XY" then
      if "X" in fa then
        PySliceBounds(fa["X"], start, stop);
        Ok(Some(PySlice(fa["X"], start, stop)))
      else Err
    else if chromosome in fa then
      PySliceBounds(fa[chromosome], start, stop);
      Ok(Some(PySlice(fa[chromosome], start, stop)))
    else Ok(None)
  }

  /** One `(ref, alt, af)` triple of G1000Reference.var_to_af. */
  datatype AfEntry = AfEntry(ref: string, alt: string, af: real)

  /** G1000Reference.var_to_af: chromosome, then position (as text), then the entries
      at that position in file order. */
  type AfTable = map<string, map<string, seq<AfEntry>>>

  /** `var_to_af.get(chromosome, {}).get(position, [])`. */
  function Entries(t: AfTable, chromosome: string, position: string): seq<AfEntry> {
    if chromosome in t && position in t[chromosome] then t[chromosome][position] else []
  }

  /** Appending one entry under its chromosome and position. */
  function AddEntry(t: AfTable, chromosome: string, position: string, e: AfEntry): (r: AfTable)
    ensures forall c, p :: Entries(r, c, p) ==
                           Entries(t, c, p) + (if c == chromosome && p == position then [e] else [])
  {
    var inner := if chromosome in t then t[chromosome] else map[];
    var list := if position in inner then inner[position] else [];
    t[chromosome := inner[position := list + [e]]]
  }

  /** The table the JSON items build, item by item; an item whose key has fewer than
      four ':'-separated fields makes the unpacking raise. */
  function VarToAf(data: seq<(string, real)>): Result<AfTable>
    decreases |data|
  {
    if |data| == 0 then Ok(map[])
    else
      var t :- VarToAf(data[..|data| - 1]);
      var fields := Split(data[|data| - 1].0, ':');
      if |fields| < 4 then Err
      else Ok(AddEntry(t, fields[0], fields[1], AfEntry(fields[2], fields[3], data[|data| - 1].1)))
  }

  /** Whether an item's key names the given chromosome and position. */
  predicate KeyAt(key: string, chromosome: string, position: string) {
    var fields := Split(key, ':');
    |fields| >= 4 && fields[0] == chromosome && fields[1] == position
  }

  function EntryOf(key: string, af: real): AfEntry
    requires |Split(key, ':')| >= 4
  {
    AfEntry(Split(key, ':')[2], Split(key, ':')[3], af)
  }

  /** Reference definition of a group: the items for one chromosome and position,
      in input order. */
  function Grouped(data: seq<(string, real)>, chromosome: string, position: string): seq<AfEntry>
    decreases |data|
  {
    if |data| == 0 then []
    else
      var last := data[|data| - 1];
      Grouped(data[..|data| - 1], chromosome, position)
      + (if KeyAt(last.0, chromosome, position) then [EntryOf(last.0, last.1)] else [])
  }

  /** get_var_to_af groups the items by chromosome and position, keeping their order
      and only the first four fields of each key. */
  lemma {:induction false} VarToAfGroups(data: seq<(string, real)>, chromosome: string, position: string)
    requires VarToAf(data).Ok?
    ensures Entries(VarToAf(data).value, chromosome, position) == Grouped(data, chromosome, position)
  {
    if |data| > 0 {
      VarToAfGroups(data[..|data| - 1], chromosome, position);
    }
  }

  /** Building the table fails exactly when some key has fewer than four fields. */
  lemma {:induction false} VarToAfFails(data: seq<(string, real)>)
    ensures VarToAf(data).Err? <==> exists i :: 0 <= i < |data| && |Split(data[i].0, ':')| < 4
  {
    if |data| > 0 {
      var init := data[..|data| - 1];
      VarToAfFails(init);
      assert forall i :: 0 <= i < |init| ==> init[i] == data[i];
    }
  }

  /** G1000Reference.get_var_to_af over the JSON items in file order. */
  method GetVarToAf(data: seq<(string, real)>) returns (r: Result<AfTable>)
    ensures r == VarToAf(data)
  {
    var out: AfTable := map[];
    for i := 0 to |data|
      invariant VarToAf(data[..i]) == Ok(out)
    {
      assert data[..i + 1][..i] == data[..i];
      var variant, af := data[i].0, data[i].1;
      var fields := Split(variant, ':');
      if |fields| < 4 {
        VarToAfFails(data[..i + 1]);
        VarToAfFails(data);
        assert data[..i + 1][i] == data[i];
        return Err;
      }
      var chromosome, position, ref, alt := fields[0], fields[1], fields[2], fields[3];
      ghost var before := out;
      ghost var inner := if chromosome in out then out[chromosome] else map[];
      ghost var list := if position in inner then inner[position] else [];
      if chromosome !in out {
        out := out[chromosome := map[]];
      }
      assert out == before[chromosome := inner];
      if position !in out[chromosome] {
        out := out[chromosome := out[chromosome][position := []]];
      }
      assert out[chromosome][position] == list;
      assert out[chromosome][position := list + [AfEntry(ref, alt, af)]] == inner[position := list + [AfEntry(ref, alt, af)]];
      out := out[chromosome := out[chromosome][position := out[chromosome][position] + [AfEntry(ref, alt, af)]]];
      assert out == AddEntry(before, chromosome, position, AfEntry(ref, alt, af));
    }
    assert data[..|data|] == data;
    r := Ok(out);
  }

  /** G1000Reference.ref_alt_match. */
  predicate RefAltMatch(e: AfEntry, ref: string, alt: string) {
    e.ref == ref && e.alt == alt
  }

  /** G1000Reference.ref_alt_prefix_match: both queried alleles are prefixes of the
      stored ones and what is left over is the same on both sides. */
  predicate RefAltPrefixMatch(e: AfEntry, ref: string, alt: string) {
    && Take(e.ref, |ref|) == ref
    && Take(e.alt, |alt|) == alt
    && PySlice(e.ref, |ref|, |e.ref|) == PySlice(e.alt, |alt|, |e.alt|)
  }

  /** A prefix match is a shared suffix extension of both alleles. */
  lemma PrefixMatchIsSharedSuffix(e: AfEntry, ref: string, alt: string)
    ensures RefAltPrefixMatch(e, ref, alt) <==> exists s :: e.ref == ref + s && e.alt == alt + s
  {
    PySliceBounds(e.ref, |ref|, |e.ref|);
    PySliceBounds(e.alt, |alt|, |e.alt|);
    if RefAltPrefixMatch(e, ref, alt) {
      assert |ref| <= |e.ref| && |alt| <= |e.alt|;
      var s := e.ref[|ref|..];
      assert e.ref == e.ref[..|ref|] + s;
      assert e.alt == e.alt[..|alt|] + e.alt[|alt|..];
    }
    if exists s :: e.ref == ref + s && e.alt == alt + s {
      var s :| e.ref == ref + s && e.alt == alt + s;
      assert e.ref[..|ref|] == ref && e.ref[|ref|..] == s;
      assert e.alt[..|alt|] == alt && e.alt[|alt|..] == s;
    }
  }

  /** An exact match is also a prefix match (with the empty suffix). */
  lemma ExactMatchIsPrefixMatch(e: AfEntry, ref: string, alt: string)
    requires RefAltMatch(e, ref, alt)
    ensures RefAltPrefixMatch(e, ref, alt)
  {
    PrefixMatchIsSharedSuffix(e, ref, alt);
    assert e.ref == ref + [] && e.alt == alt + [];
  }

  /** G1000Reference.either_match. */
  predicate EitherMatch(e: AfEntry, ref: string, alt: string) {
    RefAltMatch(e, ref, alt) || RefAltPrefixMatch(e, ref, alt)
  }

  /** Entry `i` is the first one that matches. */
  predicate IsFirstMatch(es: seq<AfEntry>, i: nat, ref: string, alt: string) {
    i < |es| && EitherMatch(es[i], ref, alt) && forall j :: 0 <= j < i ==> !EitherMatch(es[j], ref, alt)
  }

  /** The AF of the first entry, in stored order, that matches. */
  function FirstMatch(es: seq<AfEntry>, ref: string, alt: string): Option<real> {
    if |es| == 0 then None
    else if EitherMatch(es[0], ref, alt) then Some(es[0].af)
    else FirstMatch(es[1..], ref, alt)
  }

  /** The scan finds nothing exactly when no entry matches, and otherwise the AF of the
      first entry that does. */
  lemma {:induction false} FirstMatchSpec(es: seq<AfEntry>, ref: string, alt: string)
    ensures FirstMatch(es, ref, alt).None? <==> forall i :: 0 <= i < |es| ==> !EitherMatch(es[i], ref, alt)
    ensures FirstMatch(es, ref, alt).Some? ==>
              exists i: nat :: IsFirstMatch(es, i, ref, alt) && es[i].af == FirstMatch(es, ref, alt).value
  {
    if |es| > 0 {
      if EitherMatch(es[0], ref, alt) {
        assert IsFirstMatch(es, 0, ref, alt);
      } else {
        var r := FirstMatch(es[1..], ref, alt);
        FirstMatchSpec(es[1..], ref, alt);
        assert forall i :: 1 <= i < |es| ==> es[i] == es[1..][i - 1];
        if r.Some? {
          var i: nat :| IsFirstMatch(es[1..], i, ref, alt) && es[1..][i].af == r.value;
          assert IsFirstMatch(es, i + 1, ref, alt);
        }
      }
    }
  }

  /** What G1000Reference.get returns: it raises unless the variant has exactly four
      ':'-separated fields, and otherwise gives the first matching AF or none. */
  function Lookup(t: AfTable, variant: string): Result<Option<real>> {
    var fields := Split(variant, ':');
    if |fields| != 4 then Err
    else Ok(FirstMatch(Entries(t, fields[0], fields[1]), fields[2], fields[3]))
  }

  /** G1000Reference.get as the flip decision sees it: a function from a formatted
      variant id to its population AF, raising on a malformed id. */
  type AfSource = string -> Result<Option<real>>

  /** The lookup into a loaded table. */
  function Getter(t: AfTable): AfSource {
    (variant: string) => Lookup(t, variant)
  }

  /** G1000Reference.get: a scan of the entries with an early return. */
  method Get(t: AfTable, variant: string) returns (r: Result<Option<real>>)
    ensures r.Err? <==> |Split(variant, ':')| != 4
    ensures r.Ok? ==> var f := Split(variant, ':');
                     (r.value.None? <==> forall i :: 0 <= i < |Entries(t, f[0], f[1])| ==>
                                                    !EitherMatch(Entries(t, f[0], f[1])[i], f[2], f[3]))
    ensures r == Lookup(t, variant)
  {
    var fields := Split(variant, ':');
    if |fields| != 4 {
      return Err;
    }
    var chromosome, position, ref, alt := fields[0], fields[1], fields[2], fields[3];
    var refAltAfs := Entries(t, chromosome, position);
    for i := 0 to |refAltAfs|
      invariant forall j :: 0 <= j < i ==> !EitherMatch(refAltAfs[j], ref, alt)
    {
      if EitherMatch(refAltAfs[i], ref, alt) {
        FirstMatchIsFirst(refAltAfs, i, ref, alt);
        return Ok(Some(refAltAfs[i].af));
      }
    }
    FirstMatchSpec(refAltAfs, ref, alt);
    return Ok(None);
  }

  /** The first matching entry is the one FirstMatch reports. */
  lemma {:induction false} FirstMatchIsFirst(es: seq<AfEntry>, i: nat, ref: string, alt: string)
    requires IsFirstMatch(es, i, ref, alt)
    ensures FirstMatch(es, ref, alt) == Some(es[i].af)
  {
    if i > 0 {
      assert forall j :: 1 <= j < |es| ==> es[j] == es[1..][j - 1];
      assert IsFirstMatch(es[1..], i - 1, ref, alt);
      FirstMatchIsFirst(es[1..], i - 1, ref, alt);
    }
  }
}
