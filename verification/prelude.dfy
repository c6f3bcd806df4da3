/**
  Shared building blocks for the gateway model: optional values and results
  (Rust's `Option` and `Result`), the unsigned integer widths the gateway's
  records use, and the handful of `str` operations the gateway relies on
  (`starts_with`, `contains`, `strip_prefix`, `trim`, `trim_start_matches`,
  `split`).
 */
module Prelude {

  /** Rust's `Option<T>`. */
  datatype Option<+T> = None | Some(value: T) {

    /** `unwrap_or`: the carried value, or `default` when there is none. */
    function GetOr(default: T): T {
      match this
      case Some(v) => v
      case None => default
    }
  }

  /** Rust's `Result<T, E>`. */
  datatype Result<+T, +E> = Ok(value: T) | Err(error: E)

  const U16_LIMIT: int := 0x1_0000
  const U32_LIMIT: int := 0x1_0000_0000

  /** Rust's `u16`. */
  type u16 = x: int | 0 <= x < 0x1_0000

  /** Rust's `u32`. */
  type u32 = x: int | 0 <= x < 0x1_0000_0000

  /** An HTTP status code as the `http` crate admits it: three digits, 100 to 999. */
  type HttpStatus = s: int | 100 <= s <= 999 witness 200

  /** `StatusCode::is_server_error`: the 5xx class. */
  predicate IsServerError(status: HttpStatus) {
    500 <= status <= 599
  }

  /** `a + b` on `u32` as a release build computes it: modulo 2^32. */
  function WrappingAddU32(a: u32, b: u32): (r: u32)
    ensures a + b < U32_LIMIT ==> r == a + b
    ensures a + b >= U32_LIMIT ==> r == a + b - U32_LIMIT
  {
    (a + b) % U32_LIMIT
  }

  // ---------------------------------------------------------------------
  // Prefixes and substrings
  // ---------------------------------------------------------------------

  /** `s.starts_with(p)`. */
  predicate StartsWith(s: string, p: string) {
    |p| <= |s| && s[..|p|] == p
  }

  /** `s.contains(p)`: `p` occurs somewhere in `s` (the empty string occurs everywhere). */
  predicate Contains(s: string, p: string)
    decreases |s|
  {
    StartsWith(s, p) || (|s| > 0 && Contains(s[1..], p))
  }

  /** `p` occurs in `s` starting at position `i`. */
  predicate OccursAt(s: string, p: string, i: int) {
    0 <= i && i + |p| <= |s| && s[i..i + |p|] == p
  }

  /** `Contains` agrees with the positional reading: `p` occurs at some position of `s`. */
  lemma {:induction false} ContainsAt(s: string, p: string)
    ensures Contains(s, p) <==> exists i :: OccursAt(s, p, i)
    decreases |s|
  {
    if StartsWith(s, p) {
      assert OccursAt(s, p, 0);
    }
    if |s| > 0 {
      ContainsAt(s[1..], p);
      if Contains(s[1..], p) {
        var i :| OccursAt(s[1..], p, i);
        assert s[i + 1..i + 1 + |p|] == s[1..][i..i + |p|];
        assert OccursAt(s, p, i + 1);
      }
      if exists i :: OccursAt(s, p, i) {
        var i :| OccursAt(s, p, i);
        if i > 0 {
          assert s[1..][i - 1..i - 1 + |p|] == s[i..i + |p|];
          assert OccursAt(s[1..], p, i - 1);
        }
      }
    } else if exists i :: OccursAt(s, p, i) {
      var i :| OccursAt(s, p, i);
      assert StartsWith(s, p);
    }
  }

  /** `s.strip_prefix(p)`: the remainder after `p`, when `s` starts with `p`. */
  function StripPrefix(s: string, p: string): (r: Option<string>)
    ensures r.Some? <==> StartsWith(s, p)
    ensures r.Some? ==> s == p + r.value
  {
    if StartsWith(s, p) then Some(s[|p|..]) else None
  }

  /** `s.trim_start_matches(p)`: strips every leading repetition of `p`. */
  function TrimStartMatches(s: string, p: string): (r: string)
    ensures |r| <= |s|
    ensures forall i :: 0 <= i < |r| ==> r[i] == s[|s| - |r| + i]
    ensures |p| > 0 ==> !StartsWith(r, p)
    ensures |p| == 0 ==> r == s
    decreases |s|
  {
    if |p| > 0 && StartsWith(s, p) then TrimStartMatches(s[|p|..], p) else s
  }

  /** `p` written `k` times in a row. */
  function Repeat(p: string, k: nat): string {
    if k == 0 then "" else p + Repeat(p, k - 1)
  }

  /** Concatenation is associative. */
  lemma ConcatAssoc(a: string, b: string, c: string)
    ensures (a + b) + c == a + (b + c)
  {
  }

  /** What `trim_start_matches` removes is whole copies of the pattern and nothing else. */
  lemma {:induction false} TrimStartMatchesRepeats(s: string, p: string) returns (k: nat)
    ensures s == Repeat(p, k) + TrimStartMatches(s, p)
    decreases |s|
  {
    if |p| > 0 && StartsWith(s, p) {
      var rest := s[|p|..];
      var k' := TrimStartMatchesRepeats(rest, p);
      k := k' + 1;
      var r := TrimStartMatches(rest, p);
      assert TrimStartMatches(s, p) == r;
      assert Repeat(p, k) == p + Repeat(p, k');
      assert s == p + rest by { assert s[..|p|] == p; }
      ConcatAssoc(p, Repeat(p, k'), r);
    } else {
      k := 0;
      assert Repeat(p, 0) + s == s;
    }
  }

  // ---------------------------------------------------------------------
  // Whitespace and trimming
  // ---------------------------------------------------------------------

  /** `char::is_whitespace`: the Unicode White_Space property. */
  predicate IsWhitespace(c: char) {
    || ('\t' <= c <= '\r')
    || c == ' '
    || c == '\U{0085}'
    || c == '\U{00A0}'
    || c == '\U{1680}'
    || ('\U{2000}' <= c <= '\U{200A}')
    || c == '\U{2028}'
    || c == '\U{2029}'
    || c == '\U{202F}'
    || c == '\U{205F}'
    || c == '\U{3000}'
  }

  /** Neither end of `s` is whitespace. */
  predicate Trimmed(s: string) {
    |s| == 0 || (!IsWhitespace(s[0]) && !IsWhitespace(s[|s| - 1]))
  }

  /** The number of whitespace characters `s` starts with. */
  function LeadingWhitespace(s: string): (n: nat)
    ensures n <= |s|
    ensures forall i :: 0 <= i < n ==> IsWhitespace(s[i])
    ensures n < |s| ==> !IsWhitespace(s[n])
    decreases |s|
  {
    if |s| > 0 && IsWhitespace(s[0]) then 1 + LeadingWhitespace(s[1..]) else 0
  }

  /** The number of whitespace characters `s` ends with. */
  function TrailingWhitespace(s: string): (n: nat)
    ensures n <= |s|
    ensures forall i :: |s| - n <= i < |s| ==> IsWhitespace(s[i])
    ensures n < |s| ==> !IsWhitespace(s[|s| - 1 - n])
    decreases |s|
  {
    if |s| > 0 && IsWhitespace(s[|s| - 1]) then 1 + TrailingWhitespace(s[..|s| - 1]) else 0
  }

  /** `s.trim_start()`. */
  function TrimStart(s: string): (r: string)
    ensures |r| == 0 || !IsWhitespace(r[0])
  {
    s[LeadingWhitespace(s)..]
  }

  /** `s.trim_end()`. */
  function TrimEnd(s: string): (r: string)
    ensures |r| == 0 || !IsWhitespace(r[|r| - 1])
  {
    s[..|s| - TrailingWhitespace(s)]
  }

  /** `s.trim()`: `s` with its leading and trailing whitespace removed. */
  function Trim(s: string): (r: string)
    ensures Trimmed(r)
    ensures |r| <= |s|
  {
    var front := TrimStart(s);
    var r := TrimEnd(front);
    assert |r| > 0 ==> r[0] == front[0];
    r
  }

  /**
    What `trim` removes is whitespace and only whitespace: the result is the
    run of `s` starting at `start`, and every character before and after it
    is whitespace.
   */
  lemma TrimSlice(s: string) returns (start: nat)
    ensures start + |Trim(s)| <= |s|
    ensures forall i :: 0 <= i < |Trim(s)| ==> Trim(s)[i] == s[start + i]
    ensures forall i :: 0 <= i < start ==> IsWhitespace(s[i])
    ensures forall i :: start + |Trim(s)| <= i < |s| ==> IsWhitespace(s[i])
  {
    start := LeadingWhitespace(s);
    var front := TrimStart(s);
    var r := Trim(s);
    forall i | start + |r| <= i < |s|
      ensures IsWhitespace(s[i])
    {
      assert s[i] == front[i - start];
    }
  }

  /** The whitespace `trim_start` removes. */
  function LeadingPart(s: string): (w: string)
    ensures forall i :: 0 <= i < |w| ==> IsWhitespace(w[i])
  {
    var n := LeadingWhitespace(s);
    assert forall i :: 0 <= i < n ==> s[..n][i] == s[i];
    s[..n]
  }

  /** The whitespace `trim_end` removes. */
  function TrailingPart(s: string): (w: string)
    ensures forall i :: 0 <= i < |w| ==> IsWhitespace(w[i])
  {
    var m := TrailingWhitespace(s);
    s[|s| - m..]
  }

  /** Gluing the removed whitespace back around the trim gives the string back. */
  lemma TrimGlue(s: string)
    ensures s == LeadingPart(s) + Trim(s) + TrailingPart(TrimStart(s))
  {
    var front := TrimStart(s);
    var r := TrimEnd(front);
    var w1, w2 := LeadingPart(s), TrailingPart(front);
    assert s == w1 + front;
    assert front == r + w2;
    ConcatAssoc(w1, r, w2);
  }

  /** A string is its trim with whitespace on either side. */
  lemma TrimSplitsOff(s: string) returns (w1: string, w2: string)
    ensures s == w1 + Trim(s) + w2
    ensures forall i :: 0 <= i < |w1| ==> IsWhitespace(w1[i])
    ensures forall i :: 0 <= i < |w2| ==> IsWhitespace(w2[i])
  {
    w1, w2 := LeadingPart(s), TrailingPart(TrimStart(s));
    TrimGlue(s);
  }

  /** A string with no whitespace at either end is its own trim. */
  lemma TrimOfTrimmed(s: string)
    requires Trimmed(s)
    ensures Trim(s) == s
  {
  }

  // ---------------------------------------------------------------------
  // Splitting on a separator
  // ---------------------------------------------------------------------

  /** `s.split(sep)`: the pieces between separators; there is always at least one. */
  function Split(s: string, sep: char): (parts: seq<string>)
    ensures |parts| >= 1
    decreases |s|
  {
    if |s| == 0 then [""]
    else
      var rest := Split(s[1..], sep);
      if s[0] == sep then [""] + rest
      else [[s[0]] + rest[0]] + rest[1..]
  }

  /** No piece of a split contains the separator. */
  lemma {:induction false} SplitPiecesLackSep(s: string, sep: char)
    ensures forall i :: 0 <= i < |Split(s, sep)| ==> sep !in Split(s, sep)[i]
    decreases |s|
  {
    if |s| > 0 {
      SplitPiecesLackSep(s[1..], sep);
    }
  }

  /** The pieces glued back together with `sep` between them. */
  function Join(parts: seq<string>, sep: char): string
    requires |parts| >= 1
    decreases |parts|
  {
    if |parts| == 1 then parts[0] else parts[0] + [sep] + Join(parts[1..], sep)
  }

  /** Joining the piece list `SplitCons` builds puts `c` back in front of the joined rest. */
  lemma JoinConsPieces(c: char, sep: char, rest: seq<string>)
    requires |rest| >= 1
    ensures Join(if c == sep then [""] + rest else [[c] + rest[0]] + rest[1..], sep) == [c] + Join(rest, sep)
  {
    if c == sep {
      assert ([""] + rest)[1..] == rest;
    } else if |rest| > 1 {
      var parts := [[c] + rest[0]] + rest[1..];
      assert parts[1..] == rest[1..];
      calc {
        Join(parts, sep);
        ([c] + rest[0]) + [sep] + Join(rest[1..], sep);
        [c] + (rest[0] + [sep] + Join(rest[1..], sep));
      }
    }
  }

  /** Splitting loses nothing: joining the pieces gives back the original string. */
  lemma {:induction false} JoinSplit(s: string, sep: char)
    ensures Join(Split(s, sep), sep) == s
    decreases |s|
  {
    if |s| > 0 {
      var c, t := s[0], s[1..];
      assert s == [c] + t;
      SplitCons(c, t, sep);
      JoinSplit(t, sep);
      JoinConsPieces(c, sep, Split(t, sep));
    }
  }

  /** Splitting cuts exactly at the separators: pieces free of `sep` come back unchanged. */
  lemma {:induction false} SplitJoin(parts: seq<string>, sep: char)
    requires |parts| >= 1
    requires forall i :: 0 <= i < |parts| ==> sep !in parts[i]
    ensures Split(Join(parts, sep), sep) == parts
    decreases |parts|, |parts[0]|
  {
    var s := Join(parts, sep);
    if |parts[0]| > 0 {
      var c := parts[0][0];
      var tail := [parts[0][1..]] + parts[1..];
      assert Join(tail, sep) == s[1..] by {
        if |parts| > 1 {
          assert tail[1..] == parts[1..];
        }
      }
      assert c != sep by { assert c == parts[0][0]; }
      SplitJoin(tail, sep);
      assert [c] + tail[0] == parts[0];
      assert [[c] + tail[0]] + tail[1..] == parts;
    } else if |parts| > 1 {
      assert s == [sep] + Join(parts[1..], sep);
      assert s[1..] == Join(parts[1..], sep);
      SplitJoin(parts[1..], sep);
    }
  }

  /** Splitting a string that starts with `c`: a separator opens a new piece, anything else extends the first one. */
  lemma SplitCons(c: char, t: string, sep: char)
    ensures Split([c] + t, sep) ==
              if c == sep then [""] + Split(t, sep)
              else [[c] + Split(t, sep)[0]] + Split(t, sep)[1..]
  {
    assert ([c] + t)[1..] == t;
  }

  /** The piece list `SplitCons` builds, appended to more pieces, is the same list built on the longer one. */
  lemma ConsPiecesAppend(c: char, sep: char, rest: seq<string>, more: seq<string>)
    requires |rest| >= 1
    ensures (if c == sep then [""] + (rest + more) else [[c] + (rest + more)[0]] + (rest + more)[1..])
            == (if c == sep then [""] + rest else [[c] + rest[0]] + rest[1..]) + more
  {
    if c != sep {
      assert (rest + more)[1..] == rest[1..] + more;
    }
  }

  /** Splitting a concatenation at a separator splits each side independently. */
  lemma {:induction false} SplitAppend(a: string, b: string, sep: char)
    ensures Split(a + [sep] + b, sep) == Split(a, sep) + Split(b, sep)
    decreases |a|
  {
    if |a| == 0 {
      assert a + [sep] + b == [sep] + b;
      SplitCons(sep, b, sep);
    } else {
      var c, a' := a[0], a[1..];
      var t := a' + [sep] + b;
      assert a + [sep] + b == [c] + t;
      assert a == [c] + a';
      SplitCons(c, t, sep);
      SplitCons(c, a', sep);
      SplitAppend(a', b, sep);
      ConsPiecesAppend(c, sep, Split(a', sep), Split(b, sep));
    }
  }
}
