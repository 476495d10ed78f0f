/**
 * Text operations shared by both sides of the plugin/runner boundary:
 * the C++ plugin joins and terminates pieces with separators and prints integers,
 * the Python runner finds and splits on separators (str.find, str.split).
 */
module Strings {
  import opened Wrappers

  /** `pat` occurs in `s` starting at index `i`. */
  predicate MatchAt(s: string, pat: string, i: int)
  {
    0 <= i && i + |pat| <= |s| && s[i..i + |pat|] == pat
  }

  /** `pat` occurs somewhere in `s` (Python's `pat in s` on strings). */
  predicate Contains(s: string, pat: string)
  {
    exists i | 0 <= i <= |s| :: MatchAt(s, pat, i)
  }

  /** The leftmost occurrence of `pat` in `s` at or after `from`. */
  function FindFrom(s: string, pat: string, from: nat): (r: Option<nat>)
    ensures r.Some? ==> from <= r.value && MatchAt(s, pat, r.value)
    ensures r.Some? ==> forall j :: from <= j < r.value ==> !MatchAt(s, pat, j)
    ensures r.None? ==> forall j :: from <= j ==> !MatchAt(s, pat, j)
    decreases |s| - from
  {
    if from + |pat| > |s| then None
    else if s[from..from + |pat|] == pat then Some(from)
    else FindFrom(s, pat, from + 1)
  }

  /** Python's `s.find(pat)`: the index of the leftmost occurrence, or -1. */
  function PyFind(s: string, pat: string): (r: int)
    ensures r == -1 <==> !Contains(s, pat)
    ensures r >= 0 ==> MatchAt(s, pat, r) && forall j :: 0 <= j < r ==> !MatchAt(s, pat, j)
  {
    match FindFrom(s, pat, 0)
    case None => -1
    case Some(i) => i
  }

  /** Python's `s.split(sep)` for a non-empty separator: cut at every leftmost, non-overlapping occurrence. */
  function Split(s: string, sep: string): (parts: seq<string>)
    requires |sep| > 0
    ensures |parts| >= 1
    decreases |s|
  {
    match FindFrom(s, sep, 0)
    case None => [s]
    case Some(i) => [s[..i]] + Split(s[i + |sep|..], sep)
  }

  /** The pieces with `sep` between consecutive ones (Python's `sep.join(parts)`). */
  function Join(parts: seq<string>, sep: string): string
  {
    if |parts| == 0 then ""
    else if |parts| == 1 then parts[0]
    else parts[0] + sep + Join(parts[1..], sep)
  }

  /** Every piece followed by `sep`, the last one included. */
  function Terminated(parts: seq<string>, sep: string): string
  {
    if parts == [] then "" else parts[0] + sep + Terminated(parts[1..], sep)
  }

  /** The pieces one after another, with nothing between them. */
  function Concat(chunks: seq<string>): string
  {
    if chunks == [] then "" else Concat(chunks[..|chunks| - 1]) + chunks[|chunks| - 1]
  }

  /** The first piece of a split holds no separator. */
  lemma FirstPieceFree(s: string, sep: string)
    requires |sep| > 0
    ensures !Contains(Split(s, sep)[0], sep)
  {
    match FindFrom(s, sep, 0)
    case None =>
    case Some(i) =>
      var p := s[..i];
      assert Split(s, sep)[0] == p;
      forall j | 0 <= j <= |p| ensures !MatchAt(p, sep, j) {
        if j + |sep| <= |p| {
          assert !MatchAt(s, sep, j);
          assert p[j..j + |sep|] == s[j..j + |sep|] by {
            forall t | j <= t < j + |sep| ensures p[t] == s[t] { }
          }
        }
      }
  }

  /** No piece of a split holds the separator. */
  lemma {:induction false} SplitPiecesFree(s: string, sep: string)
    requires |sep| > 0
    ensures forall k :: 0 <= k < |Split(s, sep)| ==> !Contains(Split(s, sep)[k], sep)
    decreases |s|
  {
    FirstPieceFree(s, sep);
    match FindFrom(s, sep, 0)
    case None =>
    case Some(i) =>
      var rest := s[i + |sep|..];
      SplitPiecesFree(rest, sep);
      assert Split(s, sep) == [s[..i]] + Split(rest, sep);
  }

  /** Concatenating a piece in front of a run of pieces. */
  lemma {:induction false} ConcatCons(x: string, rest: seq<string>)
    ensures Concat([x] + rest) == x + Concat(rest)
    decreases |rest|
  {
    if rest != [] {
      var r := rest[..|rest| - 1];
      ConcatCons(x, r);
      assert ([x] + rest)[..|rest|] == [x] + r;
    }
  }

  /** No proper suffix of `sep` is a prefix of it, so two occurrences of `sep` never overlap. */
  predicate Unbordered(sep: string)
  {
    forall k :: 0 < k < |sep| ==> sep[k..] != sep[..|sep| - k]
  }

  /** A one-character pattern occurs exactly when that character does. */
  lemma ContainsChar(s: string, c: char)
    ensures Contains(s, [c]) <==> c in s
  {
    if c in s {
      var i :| 0 <= i < |s| && s[i] == c;
      assert MatchAt(s, [c], i);
    }
    if Contains(s, [c]) {
      var i :| 0 <= i <= |s| && MatchAt(s, [c], i);
      assert s[i] == s[i..i + 1][0];
    }
  }

  /** Appending one piece to a non-empty join adds the separator and the piece. */
  lemma {:induction false} JoinSnoc(parts: seq<string>, x: string, sep: string)
    requires |parts| > 0
    ensures Join(parts + [x], sep) == Join(parts, sep) + sep + x
    decreases |parts|
  {
    if |parts| == 1 {
      assert (parts + [x])[1..] == [x];
    } else {
      assert (parts + [x])[1..] == parts[1..] + [x];
      JoinSnoc(parts[1..], x, sep);
    }
  }

  /** Appending one piece to a terminated text adds the piece and one separator. */
  lemma {:induction false} TerminatedSnoc(parts: seq<string>, x: string, sep: string)
    ensures Terminated(parts + [x], sep) == Terminated(parts, sep) + x + sep
    decreases |parts|
  {
    if parts == [] {
      assert [x][1..] == [];
    } else {
      assert (parts + [x])[1..] == parts[1..] + [x];
      TerminatedSnoc(parts[1..], x, sep);
    }
  }

  /** Terminating every piece is joining the pieces followed by one empty piece. */
  lemma {:induction false} TerminatedIsJoin(parts: seq<string>, sep: string)
    ensures Terminated(parts, sep) == Join(parts + [""], sep)
    decreases |parts|
  {
    if parts != [] {
      assert (parts + [""])[1..] == parts[1..] + [""];
      TerminatedIsJoin(parts[1..], sep);
    }
  }

  /** Splitting and joining back on the same separator gives the original text. */
  lemma {:induction false} JoinSplit(s: string, sep: string)
    requires |sep| > 0
    ensures Join(Split(s, sep), sep) == s
    decreases |s|
  {
    match FindFrom(s, sep, 0)
    case None =>
    case Some(i) =>
      var tail := s[i + |sep|..];
      var rest := Split(tail, sep);
      JoinSplit(tail, sep);
      assert Split(s, sep) == [s[..i]] + rest;
      assert ([s[..i]] + rest)[1..] == rest;
      assert s == s[..i] + sep + tail;
  }

  /** Inside `p + sep + rest`, no occurrence of `sep` starts within `p` when `p` has none of its own. */
  lemma NoMatchInsidePiece(p: string, sep: string, rest: string, j: int)
    requires Unbordered(sep) && !Contains(p, sep)
    requires 0 <= j < |p|
    ensures !MatchAt(p + sep + rest, sep, j)
  {
    var s := p + sep + rest;
    if j + |sep| <= |p| {
      assert s[j..j + |sep|] == p[j..j + |sep|];
      assert !MatchAt(p, sep, j);
    } else {
      var d := |p| - j;
      assert s[|p|..j + |sep|] == sep[..|sep| - d];
      assert s[j..j + |sep|][d..] == s[|p|..j + |sep|];
      assert sep[d..] != sep[..|sep| - d];
    }
  }

  /** The leftmost occurrence of `sep` in `p + sep + rest` is the one right after `p`. */
  lemma FindAfterPiece(p: string, sep: string, rest: string)
    requires Unbordered(sep) && !Contains(p, sep)
    ensures FindFrom(p + sep + rest, sep, 0) == Some(|p|)
  {
    var s := p + sep + rest;
    assert s[|p|..|p| + |sep|] == sep;
    assert MatchAt(s, sep, |p|);
    var r := FindFrom(s, sep, 0);
    assert r.Some?;
    if r.value < |p| {
      NoMatchInsidePiece(p, sep, rest, r.value);
      assert false;
    }
  }

  /** Joining pieces that hold no separator and splitting the result gives the pieces back. */
  lemma {:induction false} SplitJoin(parts: seq<string>, sep: string)
    requires |sep| > 0 && Unbordered(sep) && |parts| >= 1
    requires forall k :: 0 <= k < |parts| ==> !Contains(parts[k], sep)
    ensures Split(Join(parts, sep), sep) == parts
    decreases |parts|
  {
    var p := parts[0];
    if |parts| == 1 {
      assert FindFrom(p, sep, 0).None?;
    } else {
      var rest := Join(parts[1..], sep);
      var s := p + sep + rest;
      FindAfterPiece(p, sep, rest);
      assert s[..|p|] == p;
      assert s[|p| + |sep|..] == rest;
      SplitJoin(parts[1..], sep);
      assert Split(s, sep) == [p] + parts[1..];
    }
  }

  /** Splitting a terminated text gives the pieces back, followed by one empty piece. */
  lemma SplitTerminated(parts: seq<string>, sep: string)
    requires |sep| > 0 && Unbordered(sep)
    requires forall k :: 0 <= k < |parts| ==> !Contains(parts[k], sep)
    ensures Split(Terminated(parts, sep), sep) == parts + [""]
  {
    TerminatedIsJoin(parts, sep);
    var ps := parts + [""];
    forall k | 0 <= k < |ps| ensures !Contains(ps[k], sep) {
      if k == |parts| {
        assert !MatchAt("", sep, 0);
      }
    }
    SplitJoin(ps, sep);
  }

  // ----- decimal text of integers, as a C++ output stream writes an `int` -----

  predicate IsDigit(c: char)
  {
    '0' <= c <= '9'
  }

  function DigitChar(d: nat): (c: char)
    requires d < 10
    ensures IsDigit(c)
  {
    ('0' as int + d) as char
  }

  /** Decimal digits of `n`, most significant first, with no leading zeros. */
  function NatToDecimal(n: nat): (r: string)
    ensures |r| > 0 && forall k :: 0 <= k < |r| ==> IsDigit(r[k])
    decreases n
  {
    if n < 10 then [DigitChar(n)] else NatToDecimal(n / 10) + [DigitChar(n % 10)]
  }

  /** `std::ostream << i`: optional minus sign, then the digits of |i|. */
  function IntToDecimal(i: int): (r: string)
    ensures |r| > 0
    ensures forall k :: 0 <= k < |r| ==> IsDigit(r[k]) || (k == 0 && r[k] == '-')
    ensures (r[0] == '-') <==> i < 0
  {
    if i < 0 then "-" + NatToDecimal(-i) else NatToDecimal(i)
  }

  /** The number a string of decimal digits denotes. */
  function DigitsValue(s: string): int
  {
    if s == [] then 0 else DigitsValue(s[..|s| - 1]) * 10 + (s[|s| - 1] as int - '0' as int)
  }

  /** Reads a decimal integer with an optional leading minus sign. */
  function DecimalValue(s: string): int
  {
    if |s| > 0 && s[0] == '-' then -DigitsValue(s[1..]) else DigitsValue(s)
  }

  lemma {:induction false} NatToDecimalValue(n: nat)
    ensures DigitsValue(NatToDecimal(n)) == n
    decreases n
  {
    if n >= 10 {
      var r := NatToDecimal(n);
      assert r[..|r| - 1] == NatToDecimal(n / 10);
      NatToDecimalValue(n / 10);
    }
  }

  /** The printed decimal text reads back as the same integer. */
  lemma IntToDecimalRoundTrip(i: int)
    ensures DecimalValue(IntToDecimal(i)) == i
  {
    if i < 0 {
      assert ("-" + NatToDecimal(-i))[1..] == NatToDecimal(-i);
      NatToDecimalValue(-i);
    } else {
      NatToDecimalValue(i);
    }
  }

  /** Decimal text never holds a character other than digits and the minus sign. */
  lemma DecimalHasNo(i: int, c: char)
    requires !IsDigit(c) && c != '-'
    ensures !Contains(IntToDecimal(i), [c])
  {
    ContainsChar(IntToDecimal(i), c);
  }
}
