/** DataIntake: the two passes over a summary-statistics file. The first pass counts,
    over every expansion of every line, the unambiguous variants and those the genome
    shows complemented; their ratio is the dataset's complement fraction. The second
    pass harmonises each line against that fraction and writes the records.

    The file is modelled by what successive `readline` calls return: `lines[0]` is the
    header and `readline` gives "" once the lines run out. Both passes stop at the first
    line that reads as "", which for a real file is its end. Plain and gzip files are
    read alike, so the two branches of the source are one here. */
module DataProcessing {
  import opened Wrappers
  import opened Dicts
  import opened IntakeUtilities
  import opened Lines
  import opened IntakeCounters
  import opened LineSplitting

  /** `f_in.readline()` as the `index`-th call: "" past the end of the file. */
  function ReadLine(lines: seq<string>, index: nat): (r: string)
    ensures index < |lines| ==> r == lines[index]
    ensures index >= |lines| ==> r == ""
  {
    if index < |lines| then lines[index] else ""
  }

  /** The column map of the LineSplitter built from the header line. */
  function ColMapOf(lines: seq<string>, utils: Utilities): Dict<int> {
    GetColMap(ReadLine(lines, 0), utils.meta.columnMap)
  }

  /** What one line contributes to the first pass (number_of_compliments). */
  type LineCounter = string -> Result<(nat, nat)>

  /** What one line does in the second pass (write_lines): from the counters before
      to the counters after, with the records written. */
  type LineWriter = (string, Tally) -> Result<(Tally, seq<OutputRecord>)>

  function Counter(colMap: Dict<int>, utils: Utilities, num: Numerics): LineCounter {
    line => ComplimentCounts(line, colMap, utils, num)
  }

  function Writer(fraction: Option<real>, colMap: Dict<int>, utils: Utilities, num: Numerics): LineWriter {
    (line, t) => LineEffect(line, fraction, colMap, utils, num, t)
  }

  /** The first pass from line `index` on: the lines' counts summed, raising where one
      of them raises. */
  function PassOne(lines: seq<string>, index: nat, count: LineCounter): Result<(nat, nat)>
    decreases |lines| - index
  {
    if ReadLine(lines, index) == "" then Ok((0, 0))
    else
      var counts :- count(lines[index]);
      var rest :- PassOne(lines, index + 1, count);
      Ok((counts.0 + rest.0, counts.1 + rest.1))
  }

  /** A count whose complementary part never exceeds its unambiguous part. */
  predicate Bounded(r: Result<(nat, nat)>) {
    r.Ok? ==> r.value.1 <= r.value.0
  }

  /** Summing bounded line counts gives bounded file counts. */
  lemma {:induction false} PassOneBounded(lines: seq<string>, index: nat, count: LineCounter)
    requires forall line :: Bounded(count(line))
    ensures Bounded(PassOne(lines, index, count))
    decreases |lines| - index
  {
    if ReadLine(lines, index) != "" && count(lines[index]).Ok? {
      PassOneBounded(lines, index + 1, count);
    }
  }

  /** number_of_compliments never counts more complementary than unambiguous variants. */
  lemma CounterBounded(colMap: Dict<int>, utils: Utilities, num: Numerics)
    ensures forall line :: Bounded(Counter(colMap, utils, num)(line))
  {
  }

  /** The fraction set by generate_dataset_compliment_fraction: defined only when
      some variant was unambiguous. */
  function FractionOf(counts: (nat, nat)): Option<real> {
    if counts.0 > 0 then Some(counts.1 as real / counts.0 as real) else None
  }

  lemma RatioAtMostOne(a: nat, b: nat)
    requires a <= b && 0 < b
    ensures 0.0 <= a as real / b as real <= 1.0
  {
    var q := a as real / b as real;
    assert q * b as real == a as real;
  }

  /** The dataset's complement fraction, when the first pass gives one, lies in [0, 1],
      and it is absent exactly when no variant was unambiguous. */
  lemma FractionInUnitInterval(lines: seq<string>, colMap: Dict<int>, utils: Utilities, num: Numerics)
    requires PassOne(lines, 1, Counter(colMap, utils, num)).Ok?
    ensures var counts := PassOne(lines, 1, Counter(colMap, utils, num)).value;
            && (FractionOf(counts).None? <==> counts.0 == 0)
            && (FractionOf(counts).Some? ==> 0.0 <= FractionOf(counts).value <= 1.0)
  {
    var counts := PassOne(lines, 1, Counter(colMap, utils, num)).value;
    CounterBounded(colMap, utils, num);
    PassOneBounded(lines, 1, Counter(colMap, utils, num));
    if counts.0 > 0 {
      RatioAtMostOne(counts.1, counts.0);
    }
  }

  /** What the second pass leaves behind: the counters, the records written, and whether
      it stopped on a raise. */
  datatype Pass = Pass(tally: Tally, written: seq<OutputRecord>, crashed: bool)

  /** The second pass from line `index` on: the lines written one after the other until
      the file ends or a line raises. */
  function PassTwo(lines: seq<string>, index: nat, write: LineWriter, t: Tally): Pass
    decreases |lines| - index
  {
    if ReadLine(lines, index) == "" then Pass(t, [], false)
    else
      match write(lines[index], t)
      case Err => Pass(t, [], true)
      case Ok((t', written)) =>
        var rest := PassTwo(lines, index + 1, write, t');
        Pass(rest.tally, written + rest.written, rest.crashed)
  }

  /** When the two per-line steps raise on the same lines, the second pass stops on a
      raise exactly when the first pass raises. */
  lemma {:induction false} CrashesAgree(lines: seq<string>, index: nat, count: LineCounter, write: LineWriter, t: Tally)
    requires forall line, t' :: write(line, t').Err? <==> count(line).Err?
    ensures PassTwo(lines, index, write, t).crashed <==> PassOne(lines, index, count).Err?
    decreases |lines| - index
  {
    if ReadLine(lines, index) != "" {
      var e := write(lines[index], t);
      if e.Ok? {
        CrashesAgree(lines, index + 1, count, write, e.value.0);
      }
    }
  }

  /** number_of_compliments and write_lines raise on the same lines: those that
      var_id_iterator cannot read. */
  lemma LineCrashesAgree(fraction: Option<real>, colMap: Dict<int>, utils: Utilities, num: Numerics)
    ensures forall line, t :: Writer(fraction, colMap, utils, num)(line, t).Err?
                              <==> Counter(colMap, utils, num)(line).Err?
  {
  }

  /** The number of expansions the lines from `index` on yield, up to the first line
      var_id_iterator cannot read. */
  function ExpansionCount(lines: seq<string>, index: nat, colMap: Dict<int>): nat
    decreases |lines| - index
  {
    if ReadLine(lines, index) == "" then 0
    else
      match VarIdIterator(lines[index], colMap)
      case Err => 0
      case Ok(exps) => |exps| + ExpansionCount(lines, index + 1, colMap)
  }

  /** A line step that does not raise writes one record or logs one skip per expansion
      of the line, and keeps the counters consistent. */
  predicate LineAccounted(colMap: Dict<int>, line: string, t: Tally, e: Result<(Tally, seq<OutputRecord>)>) {
    e.Ok? ==>
      && VarIdIterator(line, colMap).Ok?
      && e.value.0.numSkipped >= t.numSkipped
      && |e.value.1| + (e.value.0.numSkipped - t.numSkipped) == |VarIdIterator(line, colMap).value|
      && (t.Valid() ==> e.value.0.Valid())
  }

  /** write_lines accounts for every expansion of a line it does not raise on. */
  lemma WriterAccounted(fraction: Option<real>, colMap: Dict<int>, utils: Utilities, num: Numerics)
    ensures forall line, t :: LineAccounted(colMap, line, t, Writer(fraction, colMap, utils, num)(line, t))
  {
    forall line, t
      ensures LineAccounted(colMap, line, t, Writer(fraction, colMap, utils, num)(line, t))
    {
      if LineEffect(line, fraction, colMap, utils, num, t).Ok? {
        LineEffectAccounted(line, fraction, colMap, utils, num, t);
      }
    }
  }

  /** Every expansion the second pass reaches is written as one record or logged as one
      skip, and the counters stay consistent. */
  lemma {:induction false} PassTwoAccounted(lines: seq<string>, index: nat, colMap: Dict<int>, write: LineWriter,
                                            t: Tally)
    requires forall line, t' :: LineAccounted(colMap, line, t', write(line, t'))
    ensures var p := PassTwo(lines, index, write, t);
            && p.tally.numSkipped >= t.numSkipped
            && (!p.crashed ==> |p.written| + (p.tally.numSkipped - t.numSkipped) == ExpansionCount(lines, index, colMap))
            && (t.Valid() ==> p.tally.Valid())
    decreases |lines| - index
  {
    if ReadLine(lines, index) != "" {
      var e := write(lines[index], t);
      if e.Ok? {
        var (t1, w) := e.value;
        assert LineAccounted(colMap, lines[index], t, e);
        PassTwoAccounted(lines, index + 1, colMap, write, t1);
        var rest := PassTwo(lines, index + 1, write, t1);
        assert PassTwo(lines, index, write, t) == Pass(rest.tally, w + rest.written, rest.crashed);
        assert ExpansionCount(lines, index, colMap)
               == |VarIdIterator(lines[index], colMap).value| + ExpansionCount(lines, index + 1, colMap);
      }
    }
  }

  /** DataIntake.process_file on values: the fraction after the call and the second pass.
      The first pass runs only while the fraction is unset; when it raises, nothing is
      written and the counters are untouched. */
  function Processed(lines: seq<string>, utils: Utilities, num: Numerics, fraction: Option<real>, t: Tally)
    : (Option<real>, Pass)
  {
    var colMap := ColMapOf(lines, utils);
    if fraction.None? then
      match PassOne(lines, 1, Counter(colMap, utils, num))
      case Err => (None, Pass(t, [], true))
      case Ok(counts) =>
        var f := FractionOf(counts);
        (f, PassTwo(lines, 1, Writer(f, colMap, utils, num), t))
    else (fraction, PassTwo(lines, 1, Writer(fraction, colMap, utils, num), t))
  }

  /** A run that starts without a fraction either raises on the first line
      var_id_iterator cannot read, in its first pass and so without writing anything, or
      accounts for every expansion of the file: each is written or skipped. The fraction
      it computes lies in [0, 1] and the counters stay consistent. */
  lemma ProcessedAccounted(lines: seq<string>, utils: Utilities, num: Numerics, t: Tally)
    ensures var colMap := ColMapOf(lines, utils);
            var (f, p) := Processed(lines, utils, num, None, t);
            && (p.crashed <==> PassOne(lines, 1, Counter(colMap, utils, num)).Err?)
            && (p.crashed ==> f.None? && p.written == [] && p.tally == t)
            && (f.Some? ==> 0.0 <= f.value <= 1.0)
            && (!p.crashed ==> |p.written| + (p.tally.numSkipped - t.numSkipped) == ExpansionCount(lines, 1, colMap))
            && p.tally.numSkipped >= t.numSkipped
            && (t.Valid() ==> p.tally.Valid())
  {
    var colMap := ColMapOf(lines, utils);
    var one := PassOne(lines, 1, Counter(colMap, utils, num));
    if one.Ok? {
      var f := FractionOf(one.value);
      FractionInUnitInterval(lines, colMap, utils, num);
      LineCrashesAgree(f, colMap, utils, num);
      CrashesAgree(lines, 1, Counter(colMap, utils, num), Writer(f, colMap, utils, num), t);
      WriterAccounted(f, colMap, utils, num);
      PassTwoAccounted(lines, 1, colMap, Writer(f, colMap, utils, num), t);
    }
  }

  /** DataIntake: the input file, the run's utilities, and the complement fraction the
      first pass fills in. */
  class DataIntake {
    const lines: seq<string>
    const utils: Utilities
    const num: Numerics
    var datasetComplimentFraction: Option<real>

    constructor (lines: seq<string>, utils: Utilities, num: Numerics)
      ensures this.lines == lines && this.utils == utils && this.num == num
      ensures datasetComplimentFraction.None?
    {
      this.lines := lines;
      this.utils := utils;
      this.num := num;
      datasetComplimentFraction := None;
    }

    /** DataIntake.generate_dataset_compliment_fraction: the first pass. A raise leaves
        the fraction as it was, and so does a file without unambiguous variants. */
    method GenerateDatasetComplimentFraction() returns (r: Result<()>)
      modifies this
      ensures var one := PassOne(lines, 1, Counter(ColMapOf(lines, utils), utils, num));
              && (r.Ok? <==> one.Ok?)
              && datasetComplimentFraction
                 == if one.Ok? && FractionOf(one.value).Some? then FractionOf(one.value)
                    else old(datasetComplimentFraction)
    {
      var colMap := GetColMap(ReadLine(lines, 0), utils.meta.columnMap);
      var counts :- CountLines(colMap, Counter(colMap, utils, num));
      if counts.0 > 0 {
        datasetComplimentFraction := Some(counts.1 as real / counts.0 as real);
      }
      return Ok(());
    }

    /** The loop of generate_dataset_compliment_fraction over the lines after the
        header; `count` is number_of_compliments. */
    method CountLines(colMap: Dict<int>, ghost count: LineCounter) returns (r: Result<(nat, nat)>)
      requires forall line {:trigger ComplimentCounts(line, colMap, utils, num)} ::
                 count(line) == ComplimentCounts(line, colMap, utils, num)
      ensures r == PassOne(lines, 1, count)
    {
      var numUnambiguous: nat, numUnambiguousAndComplimentary: nat := 0, 0;
      var index := 1;
      var newLine := ReadLine(lines, index);
      while |newLine| > 0
        invariant 1 <= index && newLine == ReadLine(lines, index)
        invariant var rest := PassOne(lines, index, count);
                  && (PassOne(lines, 1, count).Ok? <==> rest.Ok?)
                  && (rest.Ok? ==> PassOne(lines, 1, count).value.0 == numUnambiguous + rest.value.0
                                   && PassOne(lines, 1, count).value.1 == numUnambiguousAndComplimentary + rest.value.1)
        decreases |lines| - index
      {
        var c := CountLine(newLine, colMap, count);
        if c.Err? {
          return Err;
        }
        var counts := c.value;
        numUnambiguous := numUnambiguous + counts.0;
        numUnambiguousAndComplimentary := numUnambiguousAndComplimentary + counts.1;
        index := index + 1;
        newLine := ReadLine(lines, index);
      }
      return Ok((numUnambiguous, numUnambiguousAndComplimentary));
    }

    /** number_of_compliments for one line, stated through `count`. */
    method CountLine(line: string, colMap: Dict<int>, ghost count: LineCounter) returns (r: Result<(nat, nat)>)
      requires forall l {:trigger ComplimentCounts(l, colMap, utils, num)} ::
                 count(l) == ComplimentCounts(l, colMap, utils, num)
      ensures r == count(line)
    {
      r := NumberOfCompliments(line, colMap, utils, num);
    }

    /** DataIntake.process_file: the first pass when the fraction is unset, then the
        second pass, whose records are returned in the order they are written. */
    method ProcessFile(debug: IntakeDebug) returns (written: seq<OutputRecord>, crashed: bool)
      modifies this, debug
      ensures var (f, p) := Processed(lines, utils, num, old(datasetComplimentFraction), old(debug.State()));
              && datasetComplimentFraction == f
              && (debug.State(), written, crashed) == (p.tally, p.written, p.crashed)
    {
      if datasetComplimentFraction.None? {
        var r := GenerateDatasetComplimentFraction();
        if r.Err? {
          return [], true;
        }
      }
      var colMap := GetColMap(ReadLine(lines, 0), utils.meta.columnMap);
      var fraction := datasetComplimentFraction;
      written, crashed := WriteFile(colMap, fraction, Writer(fraction, colMap, utils, num), debug);
    }

    /** The loop of process_file over the lines after the header; `write` is
        write_lines. */
    method WriteFile(colMap: Dict<int>, fraction: Option<real>, ghost write: LineWriter, debug: IntakeDebug)
      returns (written: seq<OutputRecord>, crashed: bool)
      requires forall line, t {:trigger LineEffect(line, fraction, colMap, utils, num, t)} ::
                 write(line, t) == LineEffect(line, fraction, colMap, utils, num, t)
      modifies debug
      ensures var p := PassTwo(lines, 1, write, old(debug.State()));
              (debug.State(), written, crashed) == (p.tally, p.written, p.crashed)
    {
      ghost var total := PassTwo(lines, 1, write, debug.State());
      written, crashed := [], false;
      var index := 1;
      var newLine := ReadLine(lines, index);
      assert [] + total.written == total.written;
      while |newLine| > 0
        invariant 1 <= index && newLine == ReadLine(lines, index)
        invariant var rest := PassTwo(lines, index, write, debug.State());
                  && total.tally == rest.tally && total.crashed == rest.crashed
                  && total.written == written + rest.written
        decreases |lines| - index
      {
        ghost var before := debug.State();
        var r := WriteLine(newLine, colMap, fraction, write, debug);
        if r.Err? {
          assert PassTwo(lines, index, write, before) == Pass(before, [], true);
          assert written + [] == written;
          return written, true;
        }
        ghost var rest := PassTwo(lines, index + 1, write, debug.State());
        assert PassTwo(lines, index, write, before) == Pass(rest.tally, r.value + rest.written, rest.crashed);
        assert written + (r.value + rest.written) == (written + r.value) + rest.written;
        written := written + r.value;
        index := index + 1;
        newLine := ReadLine(lines, index);
      }
      assert written + [] == written;
    }

    /** write_lines for one line, stated through `write`. */
    method WriteLine(line: string, colMap: Dict<int>, fraction: Option<real>, ghost write: LineWriter,
                     debug: IntakeDebug) returns (r: Result<seq<OutputRecord>>)
      requires forall l, t {:trigger LineEffect(l, fraction, colMap, utils, num, t)} ::
                 write(l, t) == LineEffect(l, fraction, colMap, utils, num, t)
      modifies debug
      ensures r.Ok? <==> write(line, old(debug.State())).Ok?
      ensures r.Ok? ==> (debug.State(), r.value) == write(line, old(debug.State())).value
      ensures r.Err? ==> debug.State() == old(debug.State())
    {
      r := WriteLines(line, fraction, colMap, utils, num, debug);
    }
  }
}
