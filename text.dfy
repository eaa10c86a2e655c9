/** The parts of Python's `str` that the harmonisation code relies on: `split` with a
    one-character separator, `strip`, `upper`, `replace` of one character, slicing
    with Python's index rules, and `str` of an integer. */
module Text {

  /** Python's `str.isspace` for one character (the characters `strip()` removes). */
  predicate IsSpace(c: char) {
    var k := c as int;
    (9 <= k <= 13) || (28 <= k <= 32) || k == 0x85 || k == 0xA0 || k == 0x1680
    || (0x2000 <= k <= 0x200A) || k == 0x2028 || k == 0x2029 || k == 0x202F
    || k == 0x205F || k == 0x3000
  }

  function TrimLeft(s: string): (r: string)
    ensures |r| <= |s| && r == s[|s| - |r|..]
    ensures forall i :: 0 <= i < |s| - |r| ==> IsSpace(s[i])
    ensures r == [] || !IsSpace(r[0])
  {
    if |s| > 0 && IsSpace(s[0]) then TrimLeft(s[1..]) else s
  }

  function TrimRight(s: string): (r: string)
    ensures |r| <= |s| && r == s[..|r|]
    ensures forall i :: |r| <= i < |s| ==> IsSpace(s[i])
    ensures r == [] || !IsSpace(r[|r| - 1])
  {
    if |s| > 0 && IsSpace(s[|s| - 1]) then TrimRight(s[..|s| - 1]) else s
  }

  /** `s.strip()`. */
  function Strip(s: string): string {
    TrimRight(TrimLeft(s))
  }

  /** Every character of `t` is white space. */
  predicate Blank(t: string) {
    forall k :: 0 <= k < |t| ==> IsSpace(t[k])
  }

  lemma TrimLeftCutsBlank(s: string)
    ensures Blank(s[..|s| - |TrimLeft(s)|])
  {
    var t := s[..|s| - |TrimLeft(s)|];
    forall k | 0 <= k < |t| ensures IsSpace(t[k]) {
      assert t[k] == s[k];
    }
  }

  lemma TrimRightCutsBlank(s: string)
    ensures Blank(s[|TrimRight(s)|..])
  {
    var n := |TrimRight(s)|;
    var t := s[n..];
    forall k | 0 <= k < |t| ensures IsSpace(t[k]) {
      assert t[k] == s[n + k];
    }
  }

  /** `strip()` keeps the middle of `s` once the white space on both ends is cut off. */
  lemma StripIsMiddle(s: string)
    ensures exists i, j :: 0 <= i <= j <= |s| && Strip(s) == s[i..j] && Blank(s[..i]) && Blank(s[j..])
    ensures Strip(s) == [] || (!IsSpace(Strip(s)[0]) && !IsSpace(Strip(s)[|Strip(s)| - 1]))
  {
    var l := TrimLeft(s);
    var r := TrimRight(l);
    var i, j := |s| - |l|, |s| - |l| + |r|;
    assert l == s[i..];
    assert r == s[i..j];
    TrimLeftCutsBlank(s);
    TrimRightCutsBlank(l);
    assert s[j..] == l[|r|..];
  }

  /** Stripping twice strips nothing more. */
  lemma StripIdempotent(s: string)
    ensures Strip(Strip(s)) == Strip(s)
  {
    var t := Strip(s);
    assert TrimLeft(t) == t;
    assert TrimRight(t) == t;
  }

  /** `upper()` restricted to ASCII letters. */
  function UpperChar(c: char): char {
    if 'a' <= c <= 'z' then (c as int - 32) as char else c
  }

  function Upper(s: string): (r: string)
    ensures |r| == |s|
    ensures forall i :: 0 <= i < |s| ==> r[i] == UpperChar(s[i])
  {
    seq(|s|, i requires 0 <= i < |s| => UpperChar(s[i]))
  }

  /** `s.replace(a, b)` for single characters. */
  function ReplaceChar(s: string, a: char, b: char): (r: string)
    ensures |r| == |s|
    ensures forall i :: 0 <= i < |s| ==> r[i] == (if s[i] == a then b else s[i])
  {
    seq(|s|, i requires 0 <= i < |s| => if s[i] == a then b else s[i])
  }

  /** Number of occurrences of `c` in `s`. */
  function Count(s: string, c: char): nat {
    if |s| == 0 then 0 else (if s[0] == c then 1 else 0) + Count(s[1..], c)
  }

  lemma CountZero(s: string, c: char)
    ensures Count(s, c) == 0 <==> c !in s
  {
    if |s| > 0 {
      CountZero(s[1..], c);
      assert s == [s[0]] + s[1..];
    }
  }

  lemma CountAppend(a: string, b: string, c: char)
    ensures Count(a + b, c) == Count(a, c) + Count(b, c)
  {
    if |a| > 0 {
      assert (a + b)[1..] == a[1..] + b;
      CountAppend(a[1..], b, c);
    } else {
      assert a + b == b;
    }
  }

  /** `s.split(sep)` for a one-character separator: the pieces between separators,
      in order; an empty string splits into one empty piece. */
  function Split(s: string, sep: char): (r: seq<string>)
    ensures |r| >= 1
    decreases |s|
  {
    if |s| == 0 then [""]
    else
      var rest := Split(s[1..], sep);
      if s[0] == sep then [""] + rest else [[s[0]] + rest[0]] + rest[1..]
  }

  /** `sep.join(parts)`. */
  function Join(parts: seq<string>, sep: char): string
    requires |parts| >= 1
  {
    if |parts| == 1 then parts[0] else parts[0] + [sep] + Join(parts[1..], sep)
  }

  lemma {:induction false} SplitJoin(s: string, sep: char)
    ensures Join(Split(s, sep), sep) == s
  {
    if |s| > 0 {
      var rest := Split(s[1..], sep);
      SplitJoin(s[1..], sep);
      if s[0] == sep {
        assert Split(s, sep)[1..] == rest;
      } else {
        var r := Split(s, sep);
        if |rest| == 1 {
          assert r == [[s[0]] + rest[0]];
        } else {
          assert r[1..] == rest[1..];
        }
        assert s == [s[0]] + s[1..];
      }
    }
  }

  lemma {:induction false} SplitPiecesFree(s: string, sep: char)
    ensures forall i :: 0 <= i < |Split(s, sep)| ==> sep !in Split(s, sep)[i]
  {
    if |s| > 0 {
      SplitPiecesFree(s[1..], sep);
      var rest := Split(s[1..], sep);
      var r := Split(s, sep);
      if s[0] != sep {
        assert forall i :: 1 <= i < |r| ==> r[i] == rest[i];
      } else {
        assert forall i :: 1 <= i < |r| ==> r[i] == rest[i - 1];
      }
    }
  }

  lemma {:induction false} SplitCount(s: string, sep: char)
    ensures |Split(s, sep)| == Count(s, sep) + 1
  {
    if |s| > 0 {
      SplitCount(s[1..], sep);
    }
  }

  lemma {:induction false} SplitFree(s: string, sep: char)
    requires sep !in s
    ensures Split(s, sep) == [s]
  {
    if |s| > 0 {
      SplitFree(s[1..], sep);
      assert s == [s[0]] + s[1..];
    }
  }

  /** One unfolding of `Split`, stated for a string given as its first character and
      the rest. */
  lemma SplitCons(c: char, t: string, sep: char)
    ensures Split([c] + t, sep) ==
            if c == sep then [""] + Split(t, sep)
            else [[c] + Split(t, sep)[0]] + Split(t, sep)[1..]
  {
    assert ([c] + t)[1..] == t;
  }

  /** A separator-free first piece followed by a separator splits off on its own. */
  lemma {:induction false} SplitFirstPiece(p: string, rest: string, sep: char)
    requires sep !in p
    ensures Split(p + [sep] + rest, sep) == [p] + Split(rest, sep)
  {
    if |p| == 0 {
      assert p + [sep] + rest == [sep] + rest;
      SplitCons(sep, rest, sep);
    } else {
      var q := p[1..] + [sep] + rest;
      SplitFirstPiece(p[1..], rest, sep);
      assert p + [sep] + rest == [p[0]] + q;
      SplitCons(p[0], q, sep);
      assert [p[0]] + p[1..] == p;
    }
  }

  /** Joining separator-free pieces and splitting again gives back the pieces. */
  lemma {:induction false} JoinSplit(parts: seq<string>, sep: char)
    requires |parts| >= 1
    requires forall i :: 0 <= i < |parts| ==> sep !in parts[i]
    ensures Split(Join(parts, sep), sep) == parts
  {
    if |parts| == 1 {
      SplitFree(parts[0], sep);
    } else {
      JoinSplit(parts[1..], sep);
      SplitFirstPiece(parts[0], Join(parts[1..], sep), sep);
      assert [parts[0]] + parts[1..] == parts;
    }
  }

  /** Python's normalisation of a slice bound `i` against a length `n`. */
  function SliceIndex(i: int, n: nat): (k: nat)
    ensures k <= n
  {
    if i < 0 then (if i + n < 0 then 0 else i + n) else if i > n then n else i
  }

  /** `s[i:j]` with Python's rules for negative and out-of-range bounds. */
  function PySlice(s: string, i: int, j: int): string {
    var a := SliceIndex(i, |s|);
    var b := SliceIndex(j, |s|);
    if a < b then s[a..b] else []
  }

  /** A slice `s[i:j]` with `i <= j` never holds more than `j - i` characters, and
      inside the string it is the ordinary subsequence. */
  lemma PySliceBounds(s: string, i: int, j: int)
    ensures i <= j ==> |PySlice(s, i, j)| <= j - i
    ensures 0 <= i <= j <= |s| ==> PySlice(s, i, j) == s[i..j]
  {
  }

  /** `s[:k]` for `k >= 0`. */
  function Take(s: string, k: nat): string {
    if k <= |s| then s[..k] else s
  }

  /** Taking `k` characters is the Python slice `s[:k]`. */
  lemma TakeIsSlice(s: string, k: nat)
    ensures Take(s, k) == PySlice(s, 0, k)
  {
  }

  function DigitChar(d: nat): char
    requires d < 10
  {
    "0123456789"[d]
  }

  function NatToString(n: nat): (r: string)
    ensures |r| >= 1
    ensures forall i :: 0 <= i < |r| ==> '0' <= r[i] <= '9'
  {
    if n < 10 then [DigitChar(n)] else NatToString(n / 10) + [DigitChar(n % 10)]
  }

  predicate IsDigits(s: string) {
    forall k :: 0 <= k < |s| ==> '0' <= s[k] <= '9'
  }

  /** The number a string of decimal digits stands for. */
  function DecimalValue(s: string): nat
    requires IsDigits(s)
  {
    if |s| == 0 then 0 else DecimalValue(s[..|s| - 1]) * 10 + (s[|s| - 1] as int - '0' as int)
  }

  /** Reading back the decimal representation of a number gives the number. */
  lemma {:induction false} NatToStringRoundTrip(n: nat)
    ensures IsDigits(NatToString(n))
    ensures DecimalValue(NatToString(n)) == n
    decreases n
  {
    var s := NatToString(n);
    if n >= 10 {
      NatToStringRoundTrip(n / 10);
      assert s[..|s| - 1] == NatToString(n / 10);
    }
  }

  /** `str(i)` for an integer. */
  function IntToString(i: int): (r: string)
    ensures forall k :: 0 <= k < |r| ==> r[k] == '-' || '0' <= r[k] <= '9'
  {
    if i < 0 then "-" + NatToString(-i) else NatToString(i)
  }
}
