/** LineSplitter: the tab-separated columns of a line, the map from the column names the
    intake uses to their index in the header, the expansion of comma-separated allele
    lists, and the per-line work of the two passes. */
module LineSplitting {
  import opened Wrappers
  import opened Text
  import opened Dicts
  import opened IntakeUtilities
  import opened VariantIdentity
  import opened Lines
  import opened IntakeCounters
  import opened LineFlipping

  /** LineSplitter.normalize_spaces: strip, then spaces to underscores. */
  function NormalizeSpaces(value: string): string {
    ReplaceChar(Strip(value), ' ', '_')
  }

  /** A normalised column has no space in it and no white space at either end. */
  lemma NormalizedColumn(value: string)
    ensures var r := NormalizeSpaces(value);
            && ' ' !in r && |r| <= |value|
            && (r == [] || (!IsSpace(r[0]) && !IsSpace(r[|r| - 1])))
  {
    StripIsMiddle(value);
    var r := NormalizeSpaces(value);
    assert forall i :: 0 <= i < |r| ==> r[i] != ' ';
  }

  /** LineSplitter.split_line. */
  function SplitLine(line: string): (r: seq<string>)
    ensures |r| == Count(line, '\t') + 1
  {
    SplitCount(line, '\t');
    var parts := Split(line, '\t');
    seq(|parts|, i requires 0 <= i < |parts| => NormalizeSpaces(parts[i]))
  }

  /** `{v: k for k, v in column_map.items()}`: each header name to the column name that
      maps to it, a later entry overriding an earlier one. The values of the column map
      are never None, so the filter of the comprehension keeps every entry. */
  function HeaderMap(columnMap: Dict<string>): Dict<string>
    decreases |columnMap|
  {
    if |columnMap| == 0 then []
    else
      var last := columnMap[|columnMap| - 1];
      Put(HeaderMap(columnMap[..|columnMap| - 1]), last.1, last.0)
  }

  /** Position `i` holds the last entry of the column map for header name `header`. */
  predicate LastFor(columnMap: Dict<string>, i: int, header: string) {
    0 <= i < |columnMap| && columnMap[i].1 == header
    && forall j :: i < j < |columnMap| ==> columnMap[j].1 != header
  }

  /** One step of the inversion: the last entry overrides the ones before it. */
  lemma HeaderMapStep(columnMap: Dict<string>, header: string)
    requires |columnMap| > 0
    ensures var n := |columnMap| - 1;
            Get(HeaderMap(columnMap), header)
            == if columnMap[n].1 == header then Some(columnMap[n].0) else Get(HeaderMap(columnMap[..n]), header)
  {
  }

  /** The column that the last entry for `header` names, searching from the end. */
  function LastColumnFor(columnMap: Dict<string>, header: string): Option<string>
    decreases |columnMap|
  {
    if |columnMap| == 0 then None
    else if columnMap[|columnMap| - 1].1 == header then Some(columnMap[|columnMap| - 1].0)
    else LastColumnFor(columnMap[..|columnMap| - 1], header)
  }

  /** Looking a header name up in the header map is the search from the end. */
  lemma {:induction false} HeaderMapLookup(columnMap: Dict<string>, header: string)
    ensures Get(HeaderMap(columnMap), header) == LastColumnFor(columnMap, header)
    decreases |columnMap|
  {
    if |columnMap| > 0 {
      HeaderMapLookup(columnMap[..|columnMap| - 1], header);
      HeaderMapStep(columnMap, header);
    }
  }

  /** The search from the end finds nothing exactly when no entry names `header`, and
      otherwise the column of the last entry that does. */
  lemma {:induction false} LastColumnForFindsLast(columnMap: Dict<string>, header: string)
    ensures LastColumnFor(columnMap, header).None? <==> forall i :: 0 <= i < |columnMap| ==> columnMap[i].1 != header
    ensures LastColumnFor(columnMap, header).Some? ==>
              exists i :: LastFor(columnMap, i, header) && columnMap[i].0 == LastColumnFor(columnMap, header).value
    decreases |columnMap|
  {
    if |columnMap| > 0 {
      var n := |columnMap| - 1;
      var init := columnMap[..n];
      LastColumnForFindsLast(init, header);
      if columnMap[n].1 == header {
        assert LastFor(columnMap, n, header);
      } else {
        assert forall i :: 0 <= i < n ==> init[i] == columnMap[i];
        if LastColumnFor(init, header).Some? {
          var i :| LastFor(init, i, header) && init[i].0 == LastColumnFor(init, header).value;
          assert LastFor(columnMap, i, header);
        }
      }
    }
  }

  /** The header map inverts the column map in both directions: a header name is absent
      exactly when no column maps to it, and otherwise it names the last column that
      does. */
  lemma HeaderMapInverts(columnMap: Dict<string>, header: string)
    ensures Get(HeaderMap(columnMap), header).None? <==> forall i :: 0 <= i < |columnMap| ==> columnMap[i].1 != header
    ensures Get(HeaderMap(columnMap), header).Some? ==>
              exists i :: LastFor(columnMap, i, header) && columnMap[i].0 == Get(HeaderMap(columnMap), header).value
  {
    HeaderMapLookup(columnMap, header);
    LastColumnForFindsLast(columnMap, header);
  }

  /** `{header_map[column]: idx for idx, column in enumerate(columns) if column in header_map}`. */
  function IndexColumns(columns: seq<string>, headerMap: Dict<string>): Dict<int>
    decreases |columns|
  {
    if |columns| == 0 then []
    else
      var n := |columns| - 1;
      var earlier := IndexColumns(columns[..n], headerMap);
      var name := Get(headerMap, columns[n]);
      if name.Some? then Put(earlier, name.value, n) else earlier
  }

  /** The last header column that stands for `name`, searching from the end. */
  function LastIndexFor(columns: seq<string>, headerMap: Dict<string>, name: string): Option<int>
    decreases |columns|
  {
    if |columns| == 0 then None
    else if Get(headerMap, columns[|columns| - 1]) == Some(name) then Some(|columns| - 1)
    else LastIndexFor(columns[..|columns| - 1], headerMap, name)
  }

  /** Looking a column name up in the index map is the search from the end. */
  lemma {:induction false} IndexColumnsLookup(columns: seq<string>, headerMap: Dict<string>, name: string)
    ensures Get(IndexColumns(columns, headerMap), name) == LastIndexFor(columns, headerMap, name)
    decreases |columns|
  {
    if |columns| > 0 {
      IndexColumnsLookup(columns[..|columns| - 1], headerMap, name);
    }
  }

  /** The search from the end finds nothing exactly when no header column stands for
      `name`, and otherwise the last one that does. */
  lemma {:induction false} LastIndexForFindsLast(columns: seq<string>, headerMap: Dict<string>, name: string)
    ensures LastIndexFor(columns, headerMap, name).None? <==>
              forall i :: 0 <= i < |columns| ==> Get(headerMap, columns[i]) != Some(name)
    ensures LastIndexFor(columns, headerMap, name).Some? ==>
              var idx := LastIndexFor(columns, headerMap, name).value;
              && 0 <= idx < |columns| && Get(headerMap, columns[idx]) == Some(name)
              && forall j :: idx < j < |columns| ==> Get(headerMap, columns[j]) != Some(name)
    decreases |columns|
  {
    if |columns| > 0 {
      var n := |columns| - 1;
      var init := columns[..n];
      LastIndexForFindsLast(init, headerMap, name);
      assert forall i :: 0 <= i < n ==> init[i] == columns[i];
    }
  }

  /** A column name is mapped exactly when some header column stands for it, and then to
      the last such column, so every index lies within the header. */
  lemma IndexColumnsFindsLast(columns: seq<string>, headerMap: Dict<string>, name: string)
    ensures Get(IndexColumns(columns, headerMap), name).None? <==>
              forall i :: 0 <= i < |columns| ==> Get(headerMap, columns[i]) != Some(name)
    ensures Get(IndexColumns(columns, headerMap), name).Some? ==>
              var idx := Get(IndexColumns(columns, headerMap), name).value;
              && 0 <= idx < |columns| && Get(headerMap, columns[idx]) == Some(name)
              && forall j :: idx < j < |columns| ==> Get(headerMap, columns[j]) != Some(name)
  {
    IndexColumnsLookup(columns, headerMap, name);
    LastIndexForFindsLast(columns, headerMap, name);
  }

  /** LineSplitter.get_col_map. */
  function GetColMap(header: string, columnMap: Dict<string>): Dict<int> {
    IndexColumns(SplitLine(header), HeaderMap(columnMap))
  }

  /** A column name is found only at a header column that the `--col-map` option names
      for it, within the header, and a name the option gives to no header column is not
      found. */
  lemma GetColMapSpec(header: string, columnMap: Dict<string>, name: string)
    ensures var cols := SplitLine(header);
            var found := Get(GetColMap(header, columnMap), name);
            found.Some? ==> 0 <= found.value < |cols| && (name, cols[found.value]) in columnMap
    ensures var cols := SplitLine(header);
            (forall i :: 0 <= i < |cols| ==> (name, cols[i]) !in columnMap)
            ==> Get(GetColMap(header, columnMap), name).None?
  {
    var cols := SplitLine(header);
    var found := Get(GetColMap(header, columnMap), name);
    IndexColumnsFindsLast(cols, HeaderMap(columnMap), name);
    if found.Some? {
      HeaderMapInverts(columnMap, cols[found.value]);
      var i :| LastFor(columnMap, i, cols[found.value]) && columnMap[i].0 == name;
      assert columnMap[i] == (name, cols[found.value]);
    }
  }

  /** One (ref, alt) pair yielded by var_id_iterator, with the line's columns. */
  datatype Expansion = Expansion(ref: string, alt: string, formattedLine: seq<string>, multiallelic: bool)

  function Row(ref: string, alts: seq<string>, formattedLine: seq<string>, multiallelic: bool): (r: seq<Expansion>)
    ensures |r| == |alts|
    ensures forall j :: 0 <= j < |alts| ==> r[j] == Expansion(ref, alts[j], formattedLine, multiallelic)
  {
    seq(|alts|, j requires 0 <= j < |alts| => Expansion(ref, alts[j], formattedLine, multiallelic))
  }

  /** The nested loops of var_id_iterator: every ref piece with every alt piece. */
  function CrossProduct(refs: seq<string>, alts: seq<string>, formattedLine: seq<string>, multiallelic: bool)
    : (r: seq<Expansion>)
    ensures |r| == |refs| * |alts|
  {
    if |refs| == 0 then []
    else Row(refs[0], alts, formattedLine, multiallelic) + CrossProduct(refs[1..], alts, formattedLine, multiallelic)
  }

  /** Ref-major, alt-minor: the pair (refs[i], alts[j]) comes at position i * |alts| + j. */
  lemma {:induction false} CrossProductOrder(refs: seq<string>, alts: seq<string>, formattedLine: seq<string>,
                                            multiallelic: bool, i: int, j: int)
    requires 0 <= i < |refs| && 0 <= j < |alts|
    ensures 0 <= i * |alts| + j < |CrossProduct(refs, alts, formattedLine, multiallelic)|
    ensures CrossProduct(refs, alts, formattedLine, multiallelic)[i * |alts| + j]
            == Expansion(refs[i], alts[j], formattedLine, multiallelic)
  {
    var n := |alts|;
    var row := Row(refs[0], alts, formattedLine, multiallelic);
    var rest := CrossProduct(refs[1..], alts, formattedLine, multiallelic);
    if i > 0 {
      CrossProductOrder(refs[1..], alts, formattedLine, multiallelic, i - 1, j);
      assert (i - 1) * n + j + n == i * n + j;
      assert (row + rest)[i * n + j] == rest[(i - 1) * n + j];
    }
  }

  /** The (reference, alternate) cells of a line, upper-cased, if the line has them. */
  function AlleleCells(formattedLine: seq<string>, colMap: Dict<int>): Result<(string, string)> {
    var ref :- Cell(formattedLine, colMap, "reference");
    var alt :- Cell(formattedLine, colMap, "alt");
    Ok((Upper(ref), Upper(alt)))
  }

  /** LineSplitter.var_id_iterator. A line without a reference or alternate cell raises
      before anything is yielded. */
  function VarIdIterator(line: string, colMap: Dict<int>): (r: Result<seq<Expansion>>)
    ensures r.Ok? <==> AlleleCells(SplitLine(line), colMap).Ok?
    ensures r.Ok? ==> var (ref, alt) := AlleleCells(SplitLine(line), colMap).value;
                      |r.value| == |Split(ref, ',')| * |Split(alt, ',')|
                      && forall k :: 0 <= k < |r.value| ==> r.value[k].formattedLine == SplitLine(line)
  {
    var formattedLine := SplitLine(line);
    var (ref, alt) :- AlleleCells(formattedLine, colMap);
    var multiallelic := ',' in ref || ',' in alt;
    var exps := CrossProduct(Split(ref, ','), Split(alt, ','), formattedLine, multiallelic);
    assert forall k :: 0 <= k < |exps| ==> exps[k].formattedLine == formattedLine by {
      forall k | 0 <= k < |exps|
        ensures exps[k].formattedLine == formattedLine
      {
        CrossProductMember(Split(ref, ','), Split(alt, ','), formattedLine, multiallelic, k);
      }
    }
    Ok(exps)
  }

  /** Every member of the cross product carries the line and the multiallelic flag. */
  lemma {:induction false} CrossProductMember(refs: seq<string>, alts: seq<string>, formattedLine: seq<string>,
                                             multiallelic: bool, k: int)
    requires 0 <= k < |CrossProduct(refs, alts, formattedLine, multiallelic)|
    ensures var e := CrossProduct(refs, alts, formattedLine, multiallelic)[k];
            e.formattedLine == formattedLine && e.multiallelic == multiallelic
            && e.ref in refs && e.alt in alts
  {
    var row := Row(refs[0], alts, formattedLine, multiallelic);
    var rest := CrossProduct(refs[1..], alts, formattedLine, multiallelic);
    if k >= |row| {
      CrossProductMember(refs[1..], alts, formattedLine, multiallelic, k - |row|);
      assert (row + rest)[k] == rest[k - |row|];
    }
  }

  /** A string holds a comma exactly when it splits into more than one piece. */
  lemma CommaSplits(s: string)
    ensures ',' in s <==> |Split(s, ',')| > 1
  {
    SplitCount(s, ',');
    CountZero(s, ',');
  }

  /** What var_id_iterator yields: the upper-cased comma-separated pieces of the
      reference and alternate cells in ref-major, alt-minor order, multiallelic exactly
      when there is more than one piece, and no piece holds a comma. */
  lemma VarIdIteratorYields(line: string, colMap: Dict<int>, i: int, j: int)
    requires AlleleCells(SplitLine(line), colMap).Ok?
    requires var (ref, alt) := AlleleCells(SplitLine(line), colMap).value;
             0 <= i < |Split(ref, ',')| && 0 <= j < |Split(alt, ',')|
    ensures var (ref, alt) := AlleleCells(SplitLine(line), colMap).value;
            var refs, alts := Split(ref, ','), Split(alt, ',');
            var exps := VarIdIterator(line, colMap).value;
            && 0 <= i * |alts| + j < |exps|
            && exps[i * |alts| + j].ref == refs[i] && exps[i * |alts| + j].alt == alts[j]
            && ',' !in exps[i * |alts| + j].ref && ',' !in exps[i * |alts| + j].alt
            && (exps[i * |alts| + j].multiallelic <==> |refs| > 1 || |alts| > 1)
  {
    var (ref, alt) := AlleleCells(SplitLine(line), colMap).value;
    var refs, alts := Split(ref, ','), Split(alt, ',');
    var multiallelic := ',' in ref || ',' in alt;
    var exps := CrossProduct(refs, alts, SplitLine(line), multiallelic);
    assert VarIdIterator(line, colMap) == Ok(exps);
    CrossProductOrder(refs, alts, SplitLine(line), multiallelic, i, j);
    var k := i * |alts| + j;
    assert 0 <= k < |exps| && exps[k].ref == refs[i] && exps[k].alt == alts[j];
    CrossProductMember(refs, alts, SplitLine(line), multiallelic, k);
    CommaSplits(ref);
    CommaSplits(alt);
    SplitPiecesFree(ref, ',');
    SplitPiecesFree(alt, ',');
  }

  /** `VarId(split_ref, split_alt, formatted_line, multiallelic, col_map, utils)` for
      each expansion, in order. */
  function VarIds(exps: seq<Expansion>, colMap: Dict<int>, utils: Utilities, num: Numerics): seq<Result<VarId>> {
    seq(|exps|, k requires 0 <= k < |exps| =>
      MakeVarId(exps[k].ref, exps[k].alt, exps[k].formattedLine, exps[k].multiallelic, colMap, utils, num))
  }

  /** Each entry is the VarId of the expansion at the same position. */
  lemma VarIdsSpec(exps: seq<Expansion>, colMap: Dict<int>, utils: Utilities, num: Numerics)
    ensures |VarIds(exps, colMap, utils, num)| == |exps|
    ensures forall k {:trigger MakeVarId(exps[k].ref, exps[k].alt, exps[k].formattedLine, exps[k].multiallelic, colMap, utils, num)}
              :: 0 <= k < |exps| ==>
              VarIds(exps, colMap, utils, num)[k]
              == MakeVarId(exps[k].ref, exps[k].alt, exps[k].formattedLine, exps[k].multiallelic, colMap, utils, num)
  {
  }

  /** What one constructed variant adds to the two counts of number_of_compliments. */
  function ClassifyVarId(varId: Result<VarId>): (nat, nat) {
    match varId
    case Err => (0, 0)
    case Ok(v) => if v.IsUnambiguous() then (1, if v.IsComplimentary() then 1 else 0) else (0, 0)
  }

  /** The two counts summed over the variants from index `i` on. */
  function TalliesFrom(varIds: seq<Result<VarId>>, i: nat): (r: (nat, nat))
    requires i <= |varIds|
    ensures r.1 <= r.0 <= |varIds| - i
    decreases |varIds| - i
  {
    if i == |varIds| then (0, 0)
    else
      var c := ClassifyVarId(varIds[i]);
      var rest := TalliesFrom(varIds, i + 1);
      (c.0 + rest.0, c.1 + rest.1)
  }

  /** number_of_compliments for one raw line; it raises only where var_id_iterator does. */
  function ComplimentCounts(line: string, colMap: Dict<int>, utils: Utilities, num: Numerics): (r: Result<(nat, nat)>)
    ensures r.Ok? <==> VarIdIterator(line, colMap).Ok?
    ensures r.Ok? ==> r.value.1 <= r.value.0 <= |VarIdIterator(line, colMap).value|
  {
    var exps :- VarIdIterator(line, colMap);
    Ok(TalliesFrom(VarIds(exps, colMap, utils, num), 0))
  }

  /** LineSplitter.number_of_compliments. */
  method NumberOfCompliments(rawLine: string, colMap: Dict<int>, utils: Utilities, num: Numerics)
    returns (r: Result<(nat, nat)>)
    ensures r == ComplimentCounts(rawLine, colMap, utils, num)
  {
    var exps :- VarIdIterator(rawLine, colMap);
    VarIdsSpec(exps, colMap, utils, num);
    var counts := CountCompliments(exps, colMap, utils, num, VarIds(exps, colMap, utils, num));
    return Ok(counts);
  }

  /** The loop of number_of_compliments over the yielded expansions. A VarId that
      raises counts for nothing. */
  method CountCompliments(exps: seq<Expansion>, colMap: Dict<int>, utils: Utilities, num: Numerics,
                          ghost varIds: seq<Result<VarId>>)
    returns (counts: (nat, nat))
    requires |varIds| == |exps|
    requires forall k {:trigger MakeVarId(exps[k].ref, exps[k].alt, exps[k].formattedLine, exps[k].multiallelic, colMap, utils, num)}
               :: 0 <= k < |exps| ==>
               varIds[k] == MakeVarId(exps[k].ref, exps[k].alt, exps[k].formattedLine, exps[k].multiallelic, colMap, utils, num)
    ensures counts == TalliesFrom(varIds, 0)
  {
    var numUnambiguous: nat, numUnambiguousAndComplimentary: nat := 0, 0;
    for i := 0 to |exps|
      invariant var rest := TalliesFrom(varIds, i);
                TalliesFrom(varIds, 0) == (numUnambiguous + rest.0, numUnambiguousAndComplimentary + rest.1)
    {
      var c := ClassifyExpansion(exps[i], colMap, utils, num);
      numUnambiguous := numUnambiguous + c.0;
      numUnambiguousAndComplimentary := numUnambiguousAndComplimentary + c.1;
    }
    return (numUnambiguous, numUnambiguousAndComplimentary);
  }

  /** The try block of number_of_compliments for one expansion: one for an unambiguous
      variant, and one more for one that is also complementary. */
  method ClassifyExpansion(e: Expansion, colMap: Dict<int>, utils: Utilities, num: Numerics)
    returns (c: (nat, nat))
    ensures c == ClassifyVarId(MakeVarId(e.ref, e.alt, e.formattedLine, e.multiallelic, colMap, utils, num))
  {
    var varId := MakeVarId(e.ref, e.alt, e.formattedLine, e.multiallelic, colMap, utils, num);
    c := (0, 0);
    if varId.Ok? && varId.value.IsUnambiguous() {
      c := (1, 0);
      if varId.value.IsComplimentary() {
        c := (1, 1);
      }
    }
  }

  /** The statistics of `Line(var_id, formatted_line, col_map, utils)`. */
  function LineStats(formattedLine: seq<string>, colMap: Dict<int>, utils: Utilities, num: Numerics): Result<Stats> {
    var columns :- ReadColumns(formattedLine, colMap, num);
    Derive(columns, utils.meta, num)
  }

  /** The part of write_lines' try block for one expansion that does not depend on the
      counters: `Err` when the VarId or the Line raises, otherwise format_line's
      decision. */
  function Attempt(e: Expansion, fraction: Option<real>, colMap: Dict<int>, utils: Utilities,
                   num: Numerics): Result<Decision> {
    var v :- MakeVarId(e.ref, e.alt, e.formattedLine, e.multiallelic, colMap, utils, num);
    var s :- LineStats(e.formattedLine, colMap, utils, num);
    Ok(Decide(v, s, utils, num, fraction))
  }

  /** The attempts for the expansions, in order. */
  function Attempts(exps: seq<Expansion>, fraction: Option<real>, colMap: Dict<int>, utils: Utilities,
                    num: Numerics): seq<Result<Decision>> {
    seq(|exps|, k requires 0 <= k < |exps| => Attempt(exps[k], fraction, colMap, utils, num))
  }

  /** Each entry is the attempt of the expansion at the same position. */
  lemma AttemptsSpec(exps: seq<Expansion>, fraction: Option<real>, colMap: Dict<int>, utils: Utilities,
                     num: Numerics)
    ensures |Attempts(exps, fraction, colMap, utils, num)| == |exps|
    ensures forall k {:trigger Attempt(exps[k], fraction, colMap, utils, num)} :: 0 <= k < |exps| ==>
              Attempts(exps, fraction, colMap, utils, num)[k] == Attempt(exps[k], fraction, colMap, utils, num)
  {
  }

  /** The counters after the try block and what it writes. Any raise inside the block is
      a skip logged with the stripped raw line. */
  function Applied(a: Result<Decision>, rawLine: string, t: Tally): (Tally, seq<OutputRecord>) {
    match a
    case Err => (Skipped(t, RawLine(Strip(rawLine))), [])
    case Ok(d) =>
      var o := Recorded(d, t);
      match o.written
      case Err => (Skipped(o.tally, RawLine(Strip(rawLine))), [])
      case Ok(w) => (o.tally, if w.Some? then [w.value] else [])
  }

  /** Each expansion is either written as one record or skipped once, never both, and the
      counters stay consistent. */
  lemma AppliedAccounted(a: Result<Decision>, rawLine: string, t: Tally)
    ensures var (t', written) := Applied(a, rawLine, t);
            && |written| <= 1
            && t'.numSkipped == t.numSkipped + 1 - |written|
            && (t.Valid() ==> t'.Valid())
  {
    var skip := RawLine(Strip(rawLine));
    if a.Err? {
      SkippedProperties(t, skip);
    } else {
      var o := Recorded(a.value, t);
      RecordedSkips(a.value, t);
      if o.written.Err? {
        SkippedProperties(o.tally, skip);
        assert Applied(a, rawLine, t) == (Skipped(o.tally, skip), []);
      } else {
        assert Applied(a, rawLine, t) == (o.tally, if o.written.value.Some? then [o.written.value.value] else []);
      }
    }
  }

  /** A valid variant without a p-value is counted by format_line, whose line_string
      then raises; write_lines catches that and logs a skip, so the variant is both
      counted and skipped, and nothing is written. */
  lemma MissingPValueCountedAndSkipped(v: VarId, s: Stats, utils: Utilities, num: Numerics,
                                       fraction: Option<real>, rawLine: string, t: Tally)
    requires v.WellFormed() && s.pValue.None?
    requires Decide(v, s, utils, num, fraction).Harmonised?
    ensures Applied(Ok(Decide(v, s, utils, num, fraction)), rawLine, t)
            == (Skipped(Counted(t, Decide(v, s, utils, num, fraction).fo), RawLine(Strip(rawLine))), [])
  {
    var d := Decide(v, s, utils, num, fraction);
    assert d.fo.compliment ==> v.complimentRef.Some? && v.complimentAlt.Some?;
    assert d.record == LineString(v, s, d.fo, utils, num);
  }

  /** The try block over the attempts of a line from index `i` on, in order. */
  function WriteEffectFrom(attempts: seq<Result<Decision>>, i: nat, rawLine: string, t: Tally)
    : (Tally, seq<OutputRecord>)
    requires i <= |attempts|
    decreases |attempts| - i
  {
    if i == |attempts| then (t, [])
    else
      var first := Applied(attempts[i], rawLine, t);
      var rest := WriteEffectFrom(attempts, i + 1, rawLine, first.0);
      (rest.0, first.1 + rest.1)
  }

  /** Every expansion of a line is accounted for: the records written and the skips
      added together are the number of expansions. */
  lemma {:induction false} WriteEffectAccounted(attempts: seq<Result<Decision>>, i: nat, rawLine: string, t: Tally)
    requires i <= |attempts|
    ensures var (t', written) := WriteEffectFrom(attempts, i, rawLine, t);
            && t'.numSkipped >= t.numSkipped
            && |written| + (t'.numSkipped - t.numSkipped) == |attempts| - i
            && (t.Valid() ==> t'.Valid())
    decreases |attempts| - i
  {
    if i < |attempts| {
      var first := Applied(attempts[i], rawLine, t);
      AppliedAccounted(attempts[i], rawLine, t);
      WriteEffectAccounted(attempts, i + 1, rawLine, first.0);
    }
  }

  /** LineSplitter.write_lines for one raw line: `Err` where var_id_iterator raises,
      which leaves the counters untouched. */
  function LineEffect(rawLine: string, fraction: Option<real>, colMap: Dict<int>, utils: Utilities,
                      num: Numerics, t: Tally): Result<(Tally, seq<OutputRecord>)> {
    var exps :- VarIdIterator(rawLine, colMap);
    Ok(WriteEffectFrom(Attempts(exps, fraction, colMap, utils, num), 0, rawLine, t))
  }

  /** A line that var_id_iterator accepts yields one record or one skip per expansion. */
  lemma LineEffectAccounted(rawLine: string, fraction: Option<real>, colMap: Dict<int>, utils: Utilities,
                            num: Numerics, t: Tally)
    requires LineEffect(rawLine, fraction, colMap, utils, num, t).Ok?
    ensures var (t', written) := LineEffect(rawLine, fraction, colMap, utils, num, t).value;
            && t'.numSkipped >= t.numSkipped
            && |written| + (t'.numSkipped - t.numSkipped) == |VarIdIterator(rawLine, colMap).value|
            && (t.Valid() ==> t'.Valid())
  {
    var exps := VarIdIterator(rawLine, colMap).value;
    WriteEffectAccounted(Attempts(exps, fraction, colMap, utils, num), 0, rawLine, t);
  }

  /** The try block of write_lines for one expansion. */
  method WriteExpansion(e: Expansion, rawLine: string, fraction: Option<real>, colMap: Dict<int>,
                        utils: Utilities, num: Numerics, debug: IntakeDebug) returns (written: seq<OutputRecord>)
    modifies debug
    ensures (debug.State(), written) == Applied(Attempt(e, fraction, colMap, utils, num), rawLine, old(debug.State()))
  {
    var varId := MakeVarId(e.ref, e.alt, e.formattedLine, e.multiallelic, colMap, utils, num);
    if varId.Err? {
      debug.RecordSkip(RawLine(Strip(rawLine)));
      return [];
    }
    var line := NewLine(varId.value, e.formattedLine, colMap, utils, num);
    if line.Err? {
      debug.RecordSkip(RawLine(Strip(rawLine)));
      return [];
    }
    var lineStr := FormatLine(line.value, utils, num, fraction, debug);
    if lineStr.Err? {
      debug.RecordSkip(RawLine(Strip(rawLine)));
      return [];
    }
    written := if lineStr.value.Some? then [lineStr.value.value] else [];
  }

  /** LineSplitter.write_lines: the records written for one raw line. */
  method WriteLines(rawLine: string, fraction: Option<real>, colMap: Dict<int>, utils: Utilities,
                    num: Numerics, debug: IntakeDebug) returns (r: Result<seq<OutputRecord>>)
    modifies debug
    ensures r.Ok? <==> LineEffect(rawLine, fraction, colMap, utils, num, old(debug.State())).Ok?
    ensures r.Ok? ==> (debug.State(), r.value) == LineEffect(rawLine, fraction, colMap, utils, num, old(debug.State())).value
    ensures r.Err? ==> debug.State() == old(debug.State())
  {
    var exps :- VarIdIterator(rawLine, colMap);
    AttemptsSpec(exps, fraction, colMap, utils, num);
    var written := WriteExpansions(exps, Attempts(exps, fraction, colMap, utils, num), rawLine, fraction, colMap,
                                   utils, num, debug);
    return Ok(written);
  }

  /** The loop of write_lines over the yielded expansions. */
  method WriteExpansions(exps: seq<Expansion>, ghost attempts: seq<Result<Decision>>, rawLine: string,
                         fraction: Option<real>, colMap: Dict<int>, utils: Utilities, num: Numerics,
                         debug: IntakeDebug) returns (out: seq<OutputRecord>)
    requires |attempts| == |exps|
    requires forall k {:trigger Attempt(exps[k], fraction, colMap, utils, num)} :: 0 <= k < |exps| ==>
               attempts[k] == Attempt(exps[k], fraction, colMap, utils, num)
    modifies debug
    ensures (debug.State(), out) == WriteEffectFrom(attempts, 0, rawLine, old(debug.State()))
  {
    out := [];
    assert [] + WriteEffectFrom(attempts, 0, rawLine, debug.State()).1 == WriteEffectFrom(attempts, 0, rawLine, debug.State()).1;
    for i := 0 to |exps|
      invariant var rest := WriteEffectFrom(attempts, i, rawLine, debug.State());
                WriteEffectFrom(attempts, 0, rawLine, old(debug.State())) == (rest.0, out + rest.1)
    {
      var written := WriteExpansion(exps[i], rawLine, fraction, colMap, utils, num, debug);
      ghost var rest := WriteEffectFrom(attempts, i + 1, rawLine, debug.State());
      assert out + (written + rest.1) == (out + written) + rest.1;
      out := out + written;
    }
    assert out + [] == out;
  }
}
