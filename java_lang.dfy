/** The few pieces of java.lang the checks rely on: 32-bit int arithmetic,
    bytes, and the String operations trim, contains, endsWith and split. */
module JavaLang {

  /** A file system path, as the text `Path.toString()` gives. */
  type Path = string

  /** A byte read from a file (the sign of Java's byte does not matter to the
      comparisons made here, so the unsigned range is used). */
  newtype Byte = b: int | 0 <= b < 0x100

  const IntMin: int := -0x8000_0000
  const IntMax: int := 0x7FFF_FFFF

  /** A Java `int`. */
  newtype Int32 = x: int | IntMin <= x <= IntMax

  /** Java's `a - b` on `int`, which wraps around modulo 2^32. */
  function Sub32(a: Int32, b: Int32): (r: Int32)
    ensures (r as int - (a as int - b as int)) % 0x1_0000_0000 == 0
  {
    var d := a as int - b as int;
    if d < IntMin then (d + 0x1_0000_0000) as Int32
    else if d > IntMax then (d - 0x1_0000_0000) as Int32
    else d as Int32
  }

  /** `String.trim` removes every leading and trailing character up to U+0020. */
  predicate IsTrimmable(c: char) {
    c <= ' '
  }

  function TrimStart(s: string): string {
    if s != [] && IsTrimmable(s[0]) then TrimStart(s[1..]) else s
  }

  function TrimEnd(s: string): string {
    if s != [] && IsTrimmable(s[|s| - 1]) then TrimEnd(s[..|s| - 1]) else s
  }

  /** `String.trim`: never longer than its input, and neither starting nor
      ending with a character up to U+0020. */
  function Trim(s: string): (r: string)
    ensures |r| <= |s|
    ensures r == [] || (!IsTrimmable(r[0]) && !IsTrimmable(r[|r| - 1]))
  {
    TrimStartSpec(s);
    TrimEndSpec(TrimStart(s));
    TrimEnd(TrimStart(s))
  }

  lemma {:induction false} TrimStartSpec(s: string)
    ensures var r := TrimStart(s);
      && |r| <= |s| && r == s[|s| - |r|..]
      && (r == [] || !IsTrimmable(r[0]))
      && (forall k :: 0 <= k < |s| - |r| ==> IsTrimmable(s[k]))
  {
    if s != [] && IsTrimmable(s[0]) {
      var t := s[1..];
      TrimStartSpec(t);
      var r := TrimStart(t);
      assert TrimStart(s) == r;
      assert t[|t| - |r|..] == s[|s| - |r|..];
      forall k | 0 <= k < |s| - |r|
        ensures IsTrimmable(s[k])
      {
        if k > 0 {
          assert s[k] == t[k - 1];
        }
      }
    }
  }

  lemma {:induction false} TrimEndSpec(s: string)
    ensures var r := TrimEnd(s);
      && r <= s
      && (r == [] || !IsTrimmable(r[|r| - 1]))
      && (forall k :: |r| <= k < |s| ==> IsTrimmable(s[k]))
  {
    if s != [] && IsTrimmable(s[|s| - 1]) {
      var t := s[..|s| - 1];
      TrimEndSpec(t);
      var r := TrimEnd(t);
      assert TrimEnd(s) == r;
      forall k | |r| <= k < |s|
        ensures IsTrimmable(s[k])
      {
        if k < |s| - 1 {
          assert s[k] == t[k];
        }
      }
    }
  }

  /** `trim` keeps a slice of `s` that neither starts nor ends with white
      space, and is empty exactly when `s` is all white space. */
  lemma TrimSpec(s: string)
    ensures exists i {:trigger s[i..]} :: 0 <= i <= |s| && Trim(s) <= s[i..]
    ensures Trim(s) == [] || (!IsTrimmable(Trim(s)[0]) && !IsTrimmable(Trim(s)[|Trim(s)| - 1]))
    ensures Trim(s) == [] <==> forall k :: 0 <= k < |s| ==> IsTrimmable(s[k])
  {
    var t := TrimStart(s);
    TrimStartSpec(s);
    TrimEndSpec(t);
    assert t == s[|s| - |t|..];
  }

  /** `String.contains`: the empty string occurs in every string, and no
      string occurs in a shorter one. */
  function Contains(s: string, sub: string): (r: bool)
    ensures sub == [] ==> r
    ensures r ==> |sub| <= |s|
  {
    sub <= s || (s != [] && Contains(s[1..], sub))
  }

  /** `contains` holds exactly when `sub` occurs at some position of `s`. */
  lemma {:induction false} ContainsIff(s: string, sub: string)
    ensures Contains(s, sub) <==> exists k {:trigger s[k..]} :: 0 <= k <= |s| && sub <= s[k..]
  {
    if sub <= s {
      assert sub <= s[0..];
    } else if s != [] {
      ContainsIff(s[1..], sub);
      assert forall k :: 1 <= k <= |s| ==> s[1..][k - 1..] == s[k..];
    }
  }

  /** `String.endsWith`. */
  predicate EndsWith(s: string, suffix: string) {
    |suffix| <= |s| && s[|s| - |suffix|..] == suffix
  }

  /** The number of occurrences of `c` in `s`. */
  function CountChar(s: string, c: char): (n: nat)
    ensures n <= |s|
    ensures n == 0 <==> c !in s
  {
    if s == [] then 0
    else (if s[0] == c then 1 else 0) + CountChar(s[1..], c)
  }

  /** Every piece of `s` between occurrences of `sep`, empty pieces included:
      one more piece than there are separators. */
  function Segments(s: string, sep: char): (r: seq<string>)
    ensures |r| == CountChar(s, sep) + 1
  {
    if s == [] then [[]]
    else
      var rest := Segments(s[1..], sep);
      if s[0] == sep then [[]] + rest
      else [[s[0]] + rest[0]] + rest[1..]
  }

  /** No piece contains the separator. */
  lemma {:induction false} SegmentsHaveNoSeparator(s: string, sep: char)
    ensures forall k :: 0 <= k < |Segments(s, sep)| ==> sep !in Segments(s, sep)[k]
  {
    if s != [] {
      SegmentsHaveNoSeparator(s[1..], sep);
      var rest := Segments(s[1..], sep);
      if s[0] != sep {
        assert sep !in rest[0];
        assert sep !in [s[0]] + rest[0];
      }
    }
  }

  /** The pieces put back together, `sep` between neighbours. */
  function Join(pieces: seq<string>, sep: char): string
    requires pieces != []
  {
    if |pieces| == 1 then pieces[0]
    else pieces[0] + [sep] + Join(pieces[1..], sep)
  }

  /** The longest prefix of `pieces` that does not end with an empty piece. */
  function DropTrailingEmpty(pieces: seq<string>): (r: seq<string>)
    ensures r <= pieces
    ensures r == [] || r[|r| - 1] != []
    ensures forall k :: |r| <= k < |pieces| ==> pieces[k] == []
  {
    if pieces != [] && pieces[|pieces| - 1] == [] then DropTrailingEmpty(pieces[..|pieces| - 1])
    else pieces
  }

  /** `String.split` on a one-character separator with limit 0: the string
      itself when the separator does not occur, otherwise the pieces with the
      trailing empty ones removed. */
  function Split(s: string, sep: char): (r: seq<string>)
    ensures |r| <= CountChar(s, sep) + 1
    ensures sep in s ==> r == [] || r[|r| - 1] != []
  {
    if sep !in s then [s] else DropTrailingEmpty(Segments(s, sep))
  }

  /** Joining the pieces gives the string back: `Segments` loses nothing. */
  lemma {:induction false} JoinSegments(s: string, sep: char)
    ensures Join(Segments(s, sep), sep) == s
  {
    if s != [] {
      JoinSegments(s[1..], sep);
      var rest := Segments(s[1..], sep);
      if s[0] == sep {
        JoinCons([], rest, sep);
      } else {
        JoinExtendFirst(s[0], rest, sep);
      }
      assert s == [s[0]] + s[1..];
    }
  }

  lemma JoinCons(piece: string, pieces: seq<string>, sep: char)
    requires pieces != []
    ensures Join([piece] + pieces, sep) == piece + [sep] + Join(pieces, sep)
  {
    assert ([piece] + pieces)[1..] == pieces;
  }

  lemma JoinExtendFirst(c: char, pieces: seq<string>, sep: char)
    requires pieces != []
    ensures Join([[c] + pieces[0]] + pieces[1..], sep) == [c] + Join(pieces, sep)
  {
    if |pieces| > 1 {
      JoinCons([c] + pieces[0], pieces[1..], sep);
      JoinCons(pieces[0], pieces[1..], sep);
      assert pieces == [pieces[0]] + pieces[1..];
    }
  }

  /** The last piece is empty exactly when `s` is empty or ends with the separator. */
  lemma {:induction false} LastSegmentEmpty(s: string, sep: char)
    ensures var r := Segments(s, sep);
      r[|r| - 1] == [] <==> (s == [] || s[|s| - 1] == sep)
  {
    if s != [] {
      LastSegmentEmpty(s[1..], sep);
      var rest := Segments(s[1..], sep);
      if s[1..] == [] {
        assert |s| == 1;
      } else {
        assert s[|s| - 1] == s[1..][|s[1..]| - 1];
        if s[0] != sep && |rest| == 1 {
          assert CountChar(s[1..], sep) == 0;
          assert s[1..][|s[1..]| - 1] in s[1..];
        }
      }
    }
  }

  /** `split` yields one piece more than there are separators when the text
      does not end with a separator (nothing to drop) and is not empty. */
  lemma SplitCount(s: string, sep: char)
    requires s != [] && s[|s| - 1] != sep
    ensures |Split(s, sep)| == CountChar(s, sep) + 1
  {
    if sep in s {
      LastSegmentEmpty(s, sep);
    }
  }

  /** A text made only of separators splits into nothing at all. */
  lemma {:induction false} SplitOnlySeparators(s: string, sep: char)
    requires s != [] && forall k :: 0 <= k < |s| ==> s[k] == sep
    ensures Split(s, sep) == []
  {
    assert sep in s by { assert s[0] in s; }
    AllSegmentsEmpty(s, sep);
  }

  lemma {:induction false} AllSegmentsEmpty(s: string, sep: char)
    requires forall k :: 0 <= k < |s| ==> s[k] == sep
    ensures forall k :: 0 <= k < |Segments(s, sep)| ==> Segments(s, sep)[k] == []
  {
    if s != [] {
      AllSegmentsEmpty(s[1..], sep);
    }
  }
}
