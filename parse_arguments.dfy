/** The pure parts of the command-line handling: the `--colmap` parser and the two
    sample-size requirement checks made after parsing. */
module ParseArguments {
  import opened Wrappers
  import opened Text
  import opened Dicts

  /** The stripped key and value of one comma-separated piece, when it holds exactly
      one '='. */
  function Assignment(piece: string): Option<(string, string)> {
    var kv := Split(piece, '=');
    if |kv| == 2 then Some((Strip(kv[0]), Strip(kv[1]))) else None
  }

  /** Reference definition: the value the last piece that assigns `key` gives it. */
  function LastAssignment(pieces: seq<string>, key: string): Option<string>
    decreases |pieces|
  {
    if |pieces| == 0 then None
    else
      var a := Assignment(pieces[|pieces| - 1]);
      if a.Some? && a.value.0 == key then Some(a.value.1)
      else LastAssignment(pieces[..|pieces| - 1], key)
  }

  /** Every piece is an assignment. */
  predicate WellFormed(pieces: seq<string>) {
    forall i :: 0 <= i < |pieces| ==> Assignment(pieces[i]).Some?
  }

  lemma BadPiece(pieces: seq<string>, i: nat)
    requires i < |pieces| && Assignment(pieces[i]).None?
    ensures !WellFormed(pieces)
  {
  }

  /** Neither side of a stored pair has white space around it. */
  predicate Stripped(kv: (string, string)) {
    Strip(kv.0) == kv.0 && Strip(kv.1) == kv.1
  }

  /** The dictionary sends each key to the value its last assignment in `pieces` gives it. */
  ghost predicate TracksLast(d: Dict<string>, pieces: seq<string>) {
    forall k :: Get(d, k) == LastAssignment(pieces, k)
  }

  /** No entry has white space around its key or its value. */
  predicate AllStripped(d: Dict<string>) {
    forall j :: 0 <= j < |d| ==> Stripped(d[j])
  }

  /** What parse_colmap's loop keeps true after the first `i` pieces. */
  ghost predicate ColmapSoFar(d: Dict<string>, pieces: seq<string>, i: nat)
    requires i <= |pieces|
  {
    && WellFormed(pieces[..i])
    && DistinctKeys(d) && |d| <= i
    && TracksLast(d, pieces[..i])
    && AllStripped(d)
  }

  lemma AssignmentStripped(piece: string)
    requires Assignment(piece).Some?
    ensures Stripped(Assignment(piece).value)
  {
    var kv := Split(piece, '=');
    StripIdempotent(kv[0]);
    StripIdempotent(kv[1]);
  }

  lemma PutKeepsStripped(d: Dict<string>, kv: (string, string))
    requires AllStripped(d) && Stripped(kv)
    ensures AllStripped(Put(d, kv.0, kv.1))
  {
    var d' := Put(d, kv.0, kv.1);
    forall j | 0 <= j < |d'|
      ensures Stripped(d'[j])
    {
      if d'[j] != kv {
        var m :| 0 <= m < |d| && d[m] == d'[j];
      }
    }
  }

  lemma PutTracksLast(d: Dict<string>, pieces: seq<string>, i: nat, a: (string, string))
    requires i < |pieces| && Assignment(pieces[i]) == Some(a)
    requires TracksLast(d, pieces[..i])
    ensures TracksLast(Put(d, a.0, a.1), pieces[..i + 1])
  {
    assert pieces[..i + 1][..i] == pieces[..i];
  }

  lemma WellFormedStep(pieces: seq<string>, i: nat)
    requires i < |pieces| && WellFormed(pieces[..i]) && Assignment(pieces[i]).Some?
    ensures WellFormed(pieces[..i + 1])
  {
  }

  lemma ColmapStep(d: Dict<string>, pieces: seq<string>, i: nat, a: (string, string))
    requires i < |pieces| && ColmapSoFar(d, pieces, i)
    requires Assignment(pieces[i]) == Some(a)
    ensures ColmapSoFar(Put(d, a.0, a.1), pieces, i + 1)
  {
    AssignmentStripped(pieces[i]);
    PutKeepsStripped(d, a);
    PutTracksLast(d, pieces, i, a);
    WellFormedStep(pieces, i);
  }

  /** What parse_colmap promises of the dictionary it builds from `pieces`: distinct
      keys, at most one entry per piece, each key mapped to the value its last
      assignment gives it, and nothing stored with white space around it. */
  ghost predicate ColmapOf(d: Dict<string>, pieces: seq<string>) {
    DistinctKeys(d) && |d| <= |pieces| && TracksLast(d, pieces) && AllStripped(d)
  }

  lemma ColmapDone(d: Dict<string>, pieces: seq<string>)
    requires ColmapSoFar(d, pieces, |pieces|)
    ensures WellFormed(pieces) && ColmapOf(d, pieces)
  {
    assert pieces[..|pieces|] == pieces;
  }

  /** parse_colmap: every comma-separated piece must hold exactly one '='; keys and values
      are stripped, a repeated key keeps its first position and takes its last value. */
  method ParseColmap(colmapStr: string) returns (r: Result<Dict<string>>)
    ensures r.Err? <==> !WellFormed(Split(colmapStr, ','))
    ensures r.Ok? ==> ColmapOf(r.value, Split(colmapStr, ','))
  {
    var colmapDict: Dict<string> := [];
    var keyValuePairs := Split(colmapStr, ',');
    for i := 0 to |keyValuePairs|
      invariant ColmapSoFar(colmapDict, keyValuePairs, i)
    {
      var kv := Split(keyValuePairs[i], '=');
      if |kv| != 2 {
        BadPiece(keyValuePairs, i);
        return Err;
      }
      var key, value := kv[0], kv[1];
      ColmapStep(colmapDict, keyValuePairs, i, (Strip(key), Strip(value)));
      colmapDict := Put(colmapDict, Strip(key), Strip(value));
    }
    ColmapDone(colmapDict, keyValuePairs);
    return Ok(colmapDict);
  }

  /** The two checks after parsing: a dichotomous trait needs both case and control
      counts unless both the 'n' and 'ncases' columns are mapped; a continuous trait
      needs a subject count unless the 'n' column is mapped. */
  function CheckSampleSizes(dichotomous: bool, cases: Option<int>, controls: Option<int>,
                            subjects: Option<int>, columnMap: Dict<string>): (r: Result<()>)
    ensures dichotomous ==>
              (r.Err? <==> (cases.None? || controls.None?)
                           && !(HasKey(columnMap, "n") && HasKey(columnMap, "ncases")))
    ensures !dichotomous ==> (r.Err? <==> subjects.None? && !HasKey(columnMap, "n"))
  {
    if dichotomous && (cases.None? || controls.None?)
       && (!HasKey(columnMap, "n") || !HasKey(columnMap, "ncases")) then Err
    else if !dichotomous && !HasKey(columnMap, "n") && subjects.None? then Err
    else Ok(())
  }

  /** A run that passes the checks and maps no 'n' column carries the counts needed
      to infer the sample size. */
  lemma AcceptedRunHasCounts(dichotomous: bool, cases: Option<int>, controls: Option<int>,
                             subjects: Option<int>, columnMap: Dict<string>)
    requires CheckSampleSizes(dichotomous, cases, controls, subjects, columnMap).Ok?
    requires !HasKey(columnMap, "n")
    ensures dichotomous ==> cases.Some? && controls.Some?
    ensures !dichotomous ==> subjects.Some?
  {
  }
}
