/** The chromosome layout of the Manhattan plot: the chromosomes side by side along the
    x axis in their sorted order, each starting where the previous one ends, coloured
    in turn from a fixed palette. */
module PlotMetaAnalysis {
  import opened Text

  /** The colour palette. */
  const COLORS: seq<string> := ["#08306b", "#41ab5d", "#000000", "#f16913", "#3f007d", "#cb181d"]

  /** CHROMOSOMES: the sorted chromosome names. */
  const CHROMOSOMES: seq<string> := ["1", "2", "3", "4", "5", "6", "7", "8", "9", "10", "11", "12", "13", "14",
                                     "15", "16", "17", "18", "19", "20", "21", "22", "X", "Y"]

  /** The list is `str(i + 1)` for i in range(22), then "X" and "Y". */
  lemma ChromosomesListed()
    ensures CHROMOSOMES == seq(22, i requires 0 <= i < 22 => NatToString(i + 1)) + ["X", "Y"]
  {
    forall i | 0 <= i < 22
      ensures CHROMOSOMES[i] == NatToString(i + 1)
    {
      if i < 9 {
        assert NatToString(i + 1) == [DigitChar(i + 1)];
      } else {
        assert NatToString(i + 1) == NatToString((i + 1) / 10) + [DigitChar((i + 1) % 10)];
        assert (i + 1) / 10 == 1 || (i + 1) / 10 == 2;
      }
    }
  }

  /** The autosome names are decimal numbers 1 to 22; "X" and "Y" are not numbers. */
  lemma ChromosomeNames(i: nat)
    requires i < |CHROMOSOMES|
    ensures i < 22 ==> IsDigits(CHROMOSOMES[i]) && DecimalValue(CHROMOSOMES[i]) == i + 1
    ensures i == 22 ==> CHROMOSOMES[i] == "X"
    ensures i == 23 ==> CHROMOSOMES[i] == "Y"
  {
    if i < 22 {
      ChromosomesListed();
      assert CHROMOSOMES[i] == NatToString(i + 1);
      NatToStringRoundTrip(i + 1);
    }
  }

  /** No chromosome is listed twice. */
  lemma ChromosomesDistinct()
    ensures forall i, j :: 0 <= i < j < |CHROMOSOMES| ==> CHROMOSOMES[i] != CHROMOSOMES[j]
  {
    forall i, j | 0 <= i < j < |CHROMOSOMES|
      ensures CHROMOSOMES[i] != CHROMOSOMES[j]
    {
      ChromosomeNames(i);
      ChromosomeNames(j);
      if j >= 22 {
        assert !IsDigits(CHROMOSOMES[j]) by {
          assert !('0' <= CHROMOSOMES[j][0] <= '9');
        }
      }
    }
  }

  /** CHROMOSOME_LEN: the length of each chromosome in base pairs. */
  const CHROMOSOME_LEN: map<string, int> := map[
    "1" := 247249719, "2" := 242951149, "3" := 199501827, "4" := 191273063,
    "5" := 180857866, "6" := 170899992, "7" := 158821424, "8" := 146274826,
    "9" := 140273252, "10" := 135374737, "11" := 134452384, "12" := 132349534,
    "13" := 114142980, "14" := 106368585, "15" := 100338915, "16" := 88827254,
    "17" := 78774742, "18" := 76117153, "19" := 63811651, "20" := 62435964,
    "21" := 46944323, "22" := 49691432, "X" := 154913754, "Y" := 57772954]

  /** Every listed chromosome has a length, and every length is positive. */
  lemma LengthsDefined()
    ensures forall i :: 0 <= i < |CHROMOSOMES| ==> CHROMOSOMES[i] in CHROMOSOME_LEN
    ensures forall i :: 0 <= i < |CHROMOSOMES| ==> CHROMOSOME_LEN[CHROMOSOMES[i]] > 0
  {
  }

  /** The length of the `i`-th chromosome. */
  function Len(i: nat): (r: int)
    requires i < |CHROMOSOMES|
    ensures r > 0
  {
    LengthsDefined();
    CHROMOSOME_LEN[CHROMOSOMES[i]]
  }

  /** The total length of the chromosomes before the `i`-th. */
  function Offset(i: nat): int
    requires i <= |CHROMOSOMES|
  {
    if i == 0 then 0 else Offset(i - 1) + Len(i - 1)
  }

  /** CHROMOSOME_MAP: each listed chromosome to itself, and "23" and "24" to "X" and "Y". */
  const CHROMOSOME_MAP: map<string, string> := (map c | c in CHROMOSOMES :: c) + map["23" := "X", "24" := "Y"]

  /** "23" and "24" are not chromosome names. */
  lemma RenamedNotListed()
    ensures "23" !in CHROMOSOMES && "24" !in CHROMOSOMES
  {
    forall i | 0 <= i < |CHROMOSOMES|
      ensures CHROMOSOMES[i] != "23" && CHROMOSOMES[i] != "24"
    {
      ChromosomeNames(i);
      if i < 22 {
        assert DecimalValue("23") == 23;
        assert DecimalValue("24") == 24;
      }
    }
  }

  /** CHROMOSOME_MAP renames exactly "23" and "24", and leaves every listed chromosome
      as it is. */
  lemma ChromosomeMapSpec()
    ensures CHROMOSOME_MAP.Keys == (set c | c in CHROMOSOMES) + {"23", "24"}
    ensures CHROMOSOME_MAP["23"] == "X" && CHROMOSOME_MAP["24"] == "Y"
    ensures forall c :: c in CHROMOSOMES ==> CHROMOSOME_MAP[c] == c
  {
    RenamedNotListed();
  }

  /** An entry of CHROMOSOME_FRAME. */
  datatype Frame = Frame(chromosome: string, x: int, color: string)

  /** What build_chromosome_map records for the `i`-th chromosome. */
  function FrameOf(i: nat): Frame
    requires i < |CHROMOSOMES|
  {
    Frame(CHROMOSOMES[i], Offset(i), COLORS[i % |COLORS|])
  }

  function XtickOf(i: nat): int
    requires i < |CHROMOSOMES|
  {
    Offset(i) + Len(i) / 2
  }

  /** The first chromosome starts at 0, and each starts further right than the one
      before it. */
  lemma {:induction false} OffsetsIncrease(i: nat, j: nat)
    requires i < j <= |CHROMOSOMES|
    ensures Offset(0) == 0
    ensures Offset(i) < Offset(j)
    decreases j
  {
    if i < j - 1 {
      OffsetsIncrease(i, j - 1);
    }
  }

  /** A chromosome's tick lies within it: at or after its start and before the next
      chromosome's start. */
  lemma XtickWithinChromosome(i: nat)
    requires i < |CHROMOSOMES|
    ensures Offset(i) <= XtickOf(i) < Offset(i + 1)
  {
  }

  /** Every tick lies before the end of the last chromosome. */
  lemma TicksBeforeEnd()
    ensures forall i :: 0 <= i < |CHROMOSOMES| ==> XtickOf(i) < Offset(|CHROMOSOMES|)
  {
    forall i | 0 <= i < |CHROMOSOMES|
      ensures XtickOf(i) < Offset(|CHROMOSOMES|)
    {
      XtickWithinChromosome(i);
      if i + 1 < |CHROMOSOMES| {
        OffsetsIncrease(i + 1, |CHROMOSOMES|);
      }
    }
  }

  /** Neighbouring chromosomes get different colours. */
  lemma AdjacentColoursDiffer(i: nat)
    requires i + 1 < |CHROMOSOMES|
    ensures FrameOf(i).color != FrameOf(i + 1).color
  {
    var a, b := i % |COLORS|, (i + 1) % |COLORS|;
    assert b == if a == 5 then 0 else a + 1;
  }

  /** The first `i` chromosomes have their frames recorded, the only other names with
      frames are those `base` had, and their frames are as in `base`. */
  ghost predicate FramesPlaced(frame: map<string, Frame>, base: map<string, Frame>, i: nat)
    requires i <= |CHROMOSOMES|
  {
    && (forall j :: 0 <= j < i ==> CHROMOSOMES[j] in frame && frame[CHROMOSOMES[j]] == FrameOf(j))
    && (forall c :: c in frame <==> c in base || c in CHROMOSOMES[..i])
    && (forall c :: c in base && c !in CHROMOSOMES[..i] ==> frame[c] == base[c])
  }

  /** The same for the ticks. */
  ghost predicate TicksPlaced(xtick: map<string, int>, base: map<string, int>, i: nat)
    requires i <= |CHROMOSOMES|
  {
    && (forall j :: 0 <= j < i ==> CHROMOSOMES[j] in xtick && xtick[CHROMOSOMES[j]] == XtickOf(j))
    && (forall c :: c in xtick <==> c in base || c in CHROMOSOMES[..i])
    && (forall c :: c in base && c !in CHROMOSOMES[..i] ==> xtick[c] == base[c])
  }

  /** The `i`-th chromosome is not among the ones before it. */
  lemma NotEarlier(i: nat)
    requires i < |CHROMOSOMES|
    ensures CHROMOSOMES[i] !in CHROMOSOMES[..i]
    ensures CHROMOSOMES[..i + 1] == CHROMOSOMES[..i] + [CHROMOSOMES[i]]
  {
    ChromosomesDistinct();
  }

  /** Recording the `i`-th chromosome's frame extends the placed prefix by one. */
  lemma PlaceFrame(frame: map<string, Frame>, base: map<string, Frame>, i: nat)
    requires i < |CHROMOSOMES| && FramesPlaced(frame, base, i)
    ensures FramesPlaced(frame[CHROMOSOMES[i] := FrameOf(i)], base, i + 1)
  {
    NotEarlier(i);
  }

  /** Recording the `i`-th chromosome's tick extends the placed prefix by one. */
  lemma PlaceTick(xtick: map<string, int>, base: map<string, int>, i: nat)
    requires i < |CHROMOSOMES| && TicksPlaced(xtick, base, i)
    ensures TicksPlaced(xtick[CHROMOSOMES[i] := XtickOf(i)], base, i + 1)
  {
    NotEarlier(i);
  }

  /** CHROMOSOME_FRAME and CHROMOSOME_XTICK, the module-level dictionaries that
      build_chromosome_map fills in. */
  class ChromosomeLayout {
    var frame: map<string, Frame>
    var xtick: map<string, int>

    constructor ()
      ensures frame == map[] && xtick == map[]
    {
      frame := map[];
      xtick := map[];
    }

    /** build_chromosome_map: walks the chromosomes in order, recording each one's start
        and colour and the position of its tick, and advancing by its length. Entries
        for other names are left alone. */
    method BuildChromosomeMap()
      modifies this
      ensures FramesPlaced(frame, old(frame), |CHROMOSOMES|)
      ensures TicksPlaced(xtick, old(xtick), |CHROMOSOMES|)
    {
      var pos := 0;
      for i := 0 to |CHROMOSOMES|
        invariant pos == Offset(i)
        invariant FramesPlaced(frame, old(frame), i)
        invariant TicksPlaced(xtick, old(xtick), i)
      {
        var chrom := CHROMOSOMES[i];
        PlaceFrame(frame, old(frame), i);
        PlaceTick(xtick, old(xtick), i);
        assert Frame(chrom, pos, COLORS[i % |COLORS|]) == FrameOf(i);
        assert pos + Len(i) / 2 == XtickOf(i);
        frame := frame[chrom := Frame(chrom, pos, COLORS[i % |COLORS|])];
        xtick := xtick[chrom := pos + Len(i) / 2];
        pos := pos + Len(i);
      }
    }

    /** `xmax`: where chromosome Y ends. */
    function XMax(): int
      reads this
      requires "Y" in frame
    {
      frame["Y"].x + CHROMOSOME_LEN["Y"]
    }

    /** Once the layout is built, the x axis ends where the last chromosome ends: at the
        sum of all chromosome lengths, past every tick. */
    lemma XMaxIsTotal()
      requires forall i :: 0 <= i < |CHROMOSOMES| ==> CHROMOSOMES[i] in frame && frame[CHROMOSOMES[i]] == FrameOf(i)
      ensures "Y" in frame && XMax() == Offset(|CHROMOSOMES|)
      ensures forall i :: 0 <= i < |CHROMOSOMES| ==> XtickOf(i) < XMax()
    {
      assert CHROMOSOMES[|CHROMOSOMES| - 1] == "Y";
      TicksBeforeEnd();
    }
  }
}
