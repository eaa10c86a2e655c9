/** IntakeDebug: the counters of one intake run and its log of skipped lines. */
module IntakeCounters {
  import opened FlipOutputs
  import opened Lines

  /** The skipped-lines log stops growing at this many entries. */
  const SKIPPED_LINES_CAP: nat := 100000

  /** An entry of skipped_lines: the record of a variant that failed validation, or the
      stripped input line of a variant whose processing raised. */
  datatype SkippedEntry = InvalidRecord(record: OutputRecord) | RawLine(text: string)

  /** The counter fields of IntakeDebug as one value. */
  datatype Tally = Tally(
    numTotal: nat,
    numSkipped: nat,
    skippedLines: seq<SkippedEntry>,
    numUnambiguous: nat,
    numUnambiguousFlipped: nat,
    numUnambiguousCompliment: nat,
    numAmbiguous: nat,
    numAmbiguousFlipped: nat,
    numAmbiguousCompliment: nat,
    numNullBeta: nat,
    numMissingAf: nat)
  {
    /** What the counters always satisfy: every counted variant is ambiguous or
        unambiguous, a sub-counter never exceeds its parent, and the log holds at most
        one entry per skip and never more than the cap. */
    predicate Valid() {
      && numAmbiguous + numUnambiguous == numTotal
      && numUnambiguousFlipped <= numUnambiguous && numUnambiguousCompliment <= numUnambiguous
      && numAmbiguousFlipped <= numAmbiguous && numAmbiguousCompliment <= numAmbiguous
      && numNullBeta <= numTotal && numMissingAf <= numTotal
      && |skippedLines| <= numSkipped && |skippedLines| <= SKIPPED_LINES_CAP
    }
  }

  /** IntakeDebug.__init__. */
  const EMPTY := Tally(0, 0, [], 0, 0, 0, 0, 0, 0, 0, 0)

  /** IntakeDebug.count. */
  function Counted(t: Tally, fo: FlipOutput): Tally {
    t.(numTotal := t.numTotal + 1,
       numAmbiguous := t.numAmbiguous + (if fo.isAmbiguous then 1 else 0),
       numAmbiguousFlipped := t.numAmbiguousFlipped + (if fo.isAmbiguous && fo.flip then 1 else 0),
       numAmbiguousCompliment := t.numAmbiguousCompliment + (if fo.isAmbiguous && fo.compliment then 1 else 0),
       numUnambiguous := t.numUnambiguous + (if !fo.isAmbiguous then 1 else 0),
       numUnambiguousFlipped := t.numUnambiguousFlipped + (if !fo.isAmbiguous && fo.flip then 1 else 0),
       numUnambiguousCompliment := t.numUnambiguousCompliment + (if !fo.isAmbiguous && fo.compliment then 1 else 0),
       numNullBeta := t.numNullBeta + (if fo.nullBeta then 1 else 0),
       numMissingAf := t.numMissingAf + (if fo.missingAf then 1 else 0))
  }

  /** A skip: `num_skipped += 1`, and the entry is logged while the log is below the cap. */
  function Skipped(t: Tally, entry: SkippedEntry): Tally {
    t.(numSkipped := t.numSkipped + 1,
       skippedLines := if |t.skippedLines| < SKIPPED_LINES_CAP then t.skippedLines + [entry] else t.skippedLines)
  }

  lemma EmptyValid()
    ensures EMPTY.Valid()
  {
  }

  /** Counting a decision raises the total by one and exactly one of the ambiguous and
      unambiguous counters by one, leaves the skip bookkeeping alone, and keeps the
      counters consistent. */
  lemma CountedProperties(t: Tally, fo: FlipOutput)
    ensures var c := Counted(t, fo);
            && c.numTotal == t.numTotal + 1
            && c.numAmbiguous + c.numUnambiguous == t.numAmbiguous + t.numUnambiguous + 1
            && (fo.isAmbiguous <==> c.numAmbiguous == t.numAmbiguous + 1)
            && (!fo.isAmbiguous <==> c.numUnambiguous == t.numUnambiguous + 1)
            && c.numSkipped == t.numSkipped && c.skippedLines == t.skippedLines
    ensures t.Valid() ==> Counted(t, fo).Valid()
  {
  }

  /** A skip raises num_skipped by one and logs the entry exactly when the log is below
      the cap; no other counter moves. */
  lemma SkippedProperties(t: Tally, entry: SkippedEntry)
    ensures var k := Skipped(t, entry);
            && k.numSkipped == t.numSkipped + 1
            && (|t.skippedLines| < SKIPPED_LINES_CAP ==> k.skippedLines == t.skippedLines + [entry])
            && (|t.skippedLines| >= SKIPPED_LINES_CAP ==> k.skippedLines == t.skippedLines)
            && k.(numSkipped := t.numSkipped, skippedLines := t.skippedLines) == t
    ensures t.Valid() ==> Skipped(t, entry).Valid()
  {
  }

  /** IntakeDebug: the counters, updated in place. The log file name is not modelled. */
  class IntakeDebug {
    var numTotal: nat
    var numSkipped: nat
    var skippedLines: seq<SkippedEntry>
    var numUnambiguous: nat
    var numUnambiguousFlipped: nat
    var numUnambiguousCompliment: nat
    var numAmbiguous: nat
    var numAmbiguousFlipped: nat
    var numAmbiguousCompliment: nat
    var numNullBeta: nat
    var numMissingAf: nat

    function State(): Tally
      reads this
    {
      Tally(numTotal, numSkipped, skippedLines, numUnambiguous, numUnambiguousFlipped,
            numUnambiguousCompliment, numAmbiguous, numAmbiguousFlipped, numAmbiguousCompliment,
            numNullBeta, numMissingAf)
    }

    predicate Valid()
      reads this
    {
      State().Valid()
    }

    constructor ()
      ensures State() == EMPTY && Valid()
    {
      numTotal := 0;
      numSkipped := 0;
      skippedLines := [];
      numUnambiguous := 0;
      numUnambiguousFlipped := 0;
      numUnambiguousCompliment := 0;
      numAmbiguous := 0;
      numAmbiguousFlipped := 0;
      numAmbiguousCompliment := 0;
      numNullBeta := 0;
      numMissingAf := 0;
    }

    /** IntakeDebug.count. */
    method Count(fo: FlipOutput)
      modifies this
      ensures State() == Counted(old(State()), fo)
      ensures old(Valid()) ==> Valid()
    {
      numTotal := numTotal + 1;
      if fo.isAmbiguous {
        numAmbiguous := numAmbiguous + 1;
        if fo.flip {
          numAmbiguousFlipped := numAmbiguousFlipped + 1;
        }
        if fo.compliment {
          numAmbiguousCompliment := numAmbiguousCompliment + 1;
        }
      }
      if !fo.isAmbiguous {
        numUnambiguous := numUnambiguous + 1;
        if fo.flip {
          numUnambiguousFlipped := numUnambiguousFlipped + 1;
        }
        if fo.compliment {
          numUnambiguousCompliment := numUnambiguousCompliment + 1;
        }
      }
      if fo.nullBeta {
        numNullBeta := numNullBeta + 1;
      }
      if fo.missingAf {
        numMissingAf := numMissingAf + 1;
      }
      CountedProperties(old(State()), fo);
    }

    /** The skip bookkeeping of format_line and write_lines. */
    method RecordSkip(entry: SkippedEntry)
      modifies this
      ensures State() == Skipped(old(State()), entry)
      ensures old(Valid()) ==> Valid()
    {
      numSkipped := numSkipped + 1;
      if |skippedLines| < SKIPPED_LINES_CAP {
        skippedLines := skippedLines + [entry];
      }
      SkippedProperties(old(State()), entry);
    }
  }
}
