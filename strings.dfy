/**
 * The string operations of Python and JavaScript that the core relies on,
 * stated over `seq<char>`: stripping, splitting, joining, prefix tests,
 * substring search and replacement, ASCII lower-casing and decimal printing.
 */
module Strings {

  /** Python's `str.isspace()` for one character. */
  predicate IsPySpace(c: char) {
    '\t' <= c <= '\r' || '\U{001C}' <= c <= ' ' || c == '\U{0085}' || c == '\U{00A0}' || c == '\U{1680}'
    || '\U{2000}' <= c <= '\U{200A}' || c == '\U{2028}' || c == '\U{2029}' || c == '\U{202F}'
    || c == '\U{205F}' || c == '\U{3000}'
  }

  /** The characters Python's `str.strip()` and `str.split()` treat as white space. */
  const PySpace: set<char> := set c: char | '\t' <= c <= '\U{3000}' && IsPySpace(c)

  /** A white-space or line-terminator character of JavaScript, as `String.prototype.trim` removes. */
  predicate IsJsSpace(c: char) {
    '\t' <= c <= '\r' || c == ' ' || c == '\U{00A0}' || c == '\U{1680}' || '\U{2000}' <= c <= '\U{200A}'
    || c == '\U{2028}' || c == '\U{2029}' || c == '\U{202F}' || c == '\U{205F}' || c == '\U{3000}'
    || c == '\U{FEFF}'
  }

  /** The characters JavaScript's `trim()` removes. */
  const JsSpace: set<char> := set c: char | '\t' <= c <= '\U{FEFF}' && IsJsSpace(c)

  predicate IsAsciiLetter(c: char) { 'a' <= c <= 'z' || 'A' <= c <= 'Z' }

  predicate IsDigit(c: char) { '0' <= c <= '9' }

  /** Python's `str.isalnum()` for one character, restricted to ASCII. */
  predicate IsAlnumChar(c: char) { IsAsciiLetter(c) || IsDigit(c) }

  /** Python's `str.isalnum()`: non-empty and every character alphanumeric. */
  predicate IsAlnum(s: string) {
    |s| > 0 && forall i :: 0 <= i < |s| ==> IsAlnumChar(s[i])
  }

  /** Python's `str.lower()` on one character, restricted to ASCII. */
  function LowerChar(c: char): char {
    if 'A' <= c <= 'Z' then (c as int + 32) as char else c
  }

  /** Python's `str.lower()` and JavaScript's `toLowerCase()`, restricted to ASCII. */
  function Lower(s: string): (r: string)
    ensures |r| == |s|
    ensures forall i :: 0 <= i < |s| ==> r[i] == LowerChar(s[i])
  {
    seq(|s|, i requires 0 <= i < |s| => LowerChar(s[i]))
  }

  predicate StartsWith(s: string, p: string) {
    |p| <= |s| && s[..|p|] == p
  }

  predicate EndsWith(s: string, p: string) {
    |p| <= |s| && s[|s| - |p|..] == p
  }

  /** Python's `p in s` and JavaScript's `s.includes(p)`: `p` occurs in `s` as a contiguous piece. */
  predicate Contains(s: string, p: string)
    decreases |s|
  {
    StartsWith(s, p) || (s != [] && Contains(s[1..], p))
  }

  /**
   * Python's `s.strip(cs)`: drops the characters of `cs` from both ends; with
   * `PySpace` it is `s.strip()`, with `JsSpace` JavaScript's `s.trim()`.
   */
  function Strip(s: string, cs: set<char>): string
    decreases |s|
  {
    if s != [] && s[0] in cs then Strip(s[1..], cs)
    else if s != [] && s[|s| - 1] in cs then Strip(s[..|s| - 1], cs)
    else s
  }

  /** Python's `str.strip()`. */
  function PyStrip(s: string): string { Strip(s, PySpace) }

  /** Python's `sep.join(parts)`. */
  function Join(parts: seq<string>, sep: string): (r: string)
    decreases |parts|
  {
    if |parts| == 0 then ""
    else if |parts| == 1 then parts[0]
    else parts[0] + sep + Join(parts[1..], sep)
  }

  /** Python's `"".join(parts)`, or building a string with `+=` part after part. */
  function Concat(parts: seq<string>): string
    decreases |parts|
  {
    if parts == [] then [] else Concat(parts[..|parts| - 1]) + parts[|parts| - 1]
  }

  /**
   * The pieces of `s` between the occurrences of characters of `cs`, empty
   * pieces included: Python's `s.split(c)` when `cs` is `{c}`.
   */
  function Split(s: string, cs: set<char>): (r: seq<string>)
    ensures |r| >= 1
    decreases |s|
  {
    if s == [] then [""]
    else
      var rest := Split(s[1..], cs);
      if s[0] in cs then [""] + rest
      else [[s[0]] + rest[0]] + rest[1..]
  }

  /** Python's `s.split(c)` for a one-character separator. */
  function SplitOn(s: string, c: char): (r: seq<string>)
    ensures |r| >= 1
  {
    Split(s, {c})
  }

  /** No character of `w` belongs to `cs`. */
  predicate NoneIn(w: string, cs: set<char>) {
    forall j :: 0 <= j < |w| ==> w[j] !in cs
  }

  /** The non-empty strings of `parts`, in order. */
  function NonEmpty(parts: seq<string>): (r: seq<string>)
    ensures |r| <= |parts|
    decreases |parts|
  {
    if parts == [] then []
    else (if parts[0] == [] then [] else [parts[0]]) + NonEmpty(parts[1..])
  }

  /** Python's `s.split()`: the maximal runs of non-white-space characters, in order. */
  function Words(s: string): seq<string> {
    NonEmpty(Split(s, PySpace))
  }

  /** Python's `s.replace(pattern, replacement)`: every non-overlapping occurrence, scanning left to right. */
  function Replace(s: string, pattern: string, replacement: string): string
    requires pattern != []
    decreases |s|
  {
    if |s| < |pattern| then s
    else if s[..|pattern|] == pattern then replacement + Replace(s[|pattern|..], pattern, replacement)
    else [s[0]] + Replace(s[1..], pattern, replacement)
  }

  /** Python's `s.replace(c, "")` for one character: `s` without any `c`. */
  function RemoveChar(s: string, c: char): (r: string)
    ensures c !in r
    decreases |s|
  {
    if s == [] then [] else (if s[0] == c then [] else [s[0]]) + RemoveChar(s[1..], c)
  }

  /** The decimal digits of `n`, as Python's `str(n)` and JavaScript's `String(n)` print it. */
  function NatToString(n: nat): (r: string)
    ensures |r| >= 1
    ensures forall i :: 0 <= i < |r| ==> IsDigit(r[i])
    decreases n
  {
    var d := ['0' + (n % 10) as char];
    if n < 10 then d else NatToString(n / 10) + d
  }

  /** Different numbers print differently. */
  lemma {:induction false} NatToStringInjective(a: nat, b: nat)
    requires NatToString(a) == NatToString(b)
    ensures a == b
    decreases a
  {
    var r := NatToString(a);
    assert r[|r| - 1] == '0' + (a % 10) as char && r[|r| - 1] == '0' + (b % 10) as char;
    if a >= 10 && b >= 10 {
      assert NatToString(a / 10) == r[..|r| - 1] == NatToString(b / 10);
      NatToStringInjective(a / 10, b / 10);
    }
  }

  // ---------------------------------------------------------------------------
  // Facts about splitting and joining

  lemma {:induction false} JoinAppend(parts: seq<string>, p: string, sep: string)
    ensures Join(parts + [p], sep) == if parts == [] then p else Join(parts, sep) + sep + p
    decreases |parts|
  {
    if |parts| == 0 {
      assert parts + [p] == [p];
    } else if |parts| == 1 {
      assert (parts + [p])[1..] == [p];
    } else {
      assert (parts + [p])[1..] == parts[1..] + [p];
      JoinAppend(parts[1..], p, sep);
    }
  }

  /** Joining the pieces of a split with the separator gives back the original string. */
  lemma {:induction false} JoinSplit(s: string, c: char)
    ensures Join(Split(s, {c}), [c]) == s
    decreases |s|
  {
    if s != [] {
      JoinSplit(s[1..], c);
      var rest := Split(s[1..], {c});
      if s[0] == c {
        assert ([""] + rest)[1..] == rest;
        assert ([""] + rest)[0] == "";
        assert Join([""] + rest, [c]) == "" + [c] + Join(rest, [c]);
        assert s == [s[0]] + s[1..];
      } else {
        var r := [[s[0]] + rest[0]] + rest[1..];
        assert r[1..] == rest[1..];
        if |rest| == 1 {
          assert Join(rest, [c]) == rest[0];
        } else {
          assert Join(rest, [c]) == rest[0] + [c] + Join(rest[1..], [c]);
        }
        assert s == [s[0]] + s[1..];
      }
    }
  }

  lemma JoinSplitOn(s: string, c: char)
    ensures Join(SplitOn(s, c), [c]) == s
  {
    JoinSplit(s, c);
  }

  /** No piece of a split holds a separator. */
  lemma {:induction false} SplitPieces(s: string, cs: set<char>)
    ensures forall i :: 0 <= i < |Split(s, cs)| ==> NoneIn(Split(s, cs)[i], cs)
    decreases |s|
  {
    if s != [] {
      SplitPieces(s[1..], cs);
      var rest := Split(s[1..], cs);
      if s[0] !in cs {
        var p := [s[0]] + rest[0];
        assert forall j :: 1 <= j < |p| ==> p[j] == rest[0][j - 1];
      }
    }
  }

  lemma SplitOnPieces(s: string, c: char)
    ensures forall i :: 0 <= i < |SplitOn(s, c)| ==> c !in SplitOn(s, c)[i]
  {
    SplitPieces(s, {c});
    forall i | 0 <= i < |SplitOn(s, c)| ensures c !in SplitOn(s, c)[i] {
      assert NoneIn(SplitOn(s, c)[i], {c});
    }
  }

  /** Splitting a join of separator-free pieces recovers the pieces. */
  lemma {:induction false} SplitJoin(parts: seq<string>, c: char)
    requires |parts| >= 1
    requires forall i :: 0 <= i < |parts| ==> c !in parts[i]
    ensures Split(Join(parts, [c]), {c}) == parts
    decreases |parts|, |parts[0]|
  {
    if |parts[0]| > 0 {
      var p0 := parts[0];
      var shorter := [p0[1..]] + parts[1..];
      assert forall i :: 0 <= i < |shorter| ==> c !in shorter[i] by {
        forall i | 0 <= i < |shorter| ensures c !in shorter[i] {
          if i == 0 {
            assert forall k :: 0 <= k < |p0[1..]| ==> p0[1..][k] == p0[k + 1];
          } else {
            assert shorter[i] == parts[i];
          }
        }
      }
      SplitJoin(shorter, c);
      var j := Join(parts, [c]);
      assert shorter[1..] == parts[1..];
      if |parts| == 1 {
        assert j == p0;
        assert j[1..] == Join(shorter, [c]);
      } else {
        assert j == p0 + [c] + Join(parts[1..], [c]);
        assert j[1..] == Join(shorter, [c]);
      }
      assert j[0] == p0[0];
      assert p0[0] != c by { assert p0[0] == parts[0][0]; }
      assert [p0[0]] + p0[1..] == p0;
      assert [[p0[0]] + p0[1..]] + parts[1..] == parts;
    } else if |parts| == 1 {
      assert Join(parts, [c]) == "";
    } else {
      var j := Join(parts, [c]);
      assert j == [c] + Join(parts[1..], [c]);
      assert j[1..] == Join(parts[1..], [c]);
      assert forall i :: 0 <= i < |parts[1..]| ==> c !in parts[1..][i];
      SplitJoin(parts[1..], c);
      assert [""] + parts[1..] == parts;
    }
  }

  lemma SplitOnJoin(parts: seq<string>, c: char)
    requires |parts| >= 1
    requires forall i :: 0 <= i < |parts| ==> c !in parts[i]
    ensures SplitOn(Join(parts, [c]), c) == parts
  {
    SplitJoin(parts, c);
  }

  /** A join of strings drawn from `cs` with a separator drawn from `cs` only holds characters of `cs`. */
  lemma {:induction false} JoinChars(parts: seq<string>, sep: string, cs: set<char>)
    requires forall i, k :: 0 <= i < |parts| && 0 <= k < |parts[i]| ==> parts[i][k] in cs
    requires forall k :: 0 <= k < |sep| ==> sep[k] in cs
    ensures forall k :: 0 <= k < |Join(parts, sep)| ==> Join(parts, sep)[k] in cs
    decreases |parts|
  {
    if |parts| > 1 {
      JoinChars(parts[1..], sep, cs);
      var t := Join(parts[1..], sep);
      assert Join(parts, sep) == parts[0] + sep + t;
      forall k | 0 <= k < |parts[0] + sep + t| ensures (parts[0] + sep + t)[k] in cs {
        if k < |parts[0]| {
        } else if k < |parts[0]| + |sep| {
          assert (parts[0] + sep + t)[k] == sep[k - |parts[0]|];
        } else {
          assert (parts[0] + sep + t)[k] == t[k - |parts[0]| - |sep|];
        }
      }
    } else if |parts| == 1 {
      assert Join(parts, sep) == parts[0];
    }
  }

  // ---------------------------------------------------------------------------
  // Facts about prefixes and substrings

  /** A string contains every string it starts with, and every piece found at some position. */
  lemma {:induction false} ContainsAt(s: string, p: string, i: nat)
    requires i + |p| <= |s| && s[i..i + |p|] == p
    ensures Contains(s, p)
    decreases i
  {
    if i > 0 {
      assert s[1..][i - 1..i - 1 + |p|] == s[i..i + |p|];
      ContainsAt(s[1..], p, i - 1);
    }
  }

  lemma StartsWithAppend(p: string, s: string)
    ensures StartsWith(p + s, p)
  {
    assert (p + s)[..|p|] == p;
  }

  lemma EndsWithAppend(p: string, s: string)
    ensures EndsWith(p + s, s)
  {
    assert (p + s)[|p|..] == s;
  }

  /** A piece found in a string is still found once something is put in front. */
  lemma {:induction false} ContainsAppend(a: string, b: string, p: string)
    requires Contains(b, p)
    ensures Contains(a + b, p)
    decreases |a|
  {
    if a != [] {
      assert (a + b)[1..] == a[1..] + b;
      ContainsAppend(a[1..], b, p);
      assert Contains((a + b)[1..], p);
    } else {
      assert a + b == b;
    }
  }

  // ---------------------------------------------------------------------------
  // Facts about white-space splitting

  /** The stripped string only holds characters of the original, and neither starts nor ends with one of `cs`. */
  lemma {:induction false} StripShape(s: string, cs: set<char>)
    ensures var r := Strip(s, cs); |r| <= |s| && forall j :: 0 <= j < |r| ==> r[j] in s
    ensures var r := Strip(s, cs); r != [] ==> r[0] !in cs && r[|r| - 1] !in cs
    decreases |s|
  {
    if s != [] && s[0] in cs {
      StripShape(s[1..], cs);
    } else if s != [] && s[|s| - 1] in cs {
      StripShape(s[..|s| - 1], cs);
    }
  }

  /** A string made of characters of `cs` only strips to "". */
  lemma {:induction false} StripAll(s: string, cs: set<char>)
    requires forall i :: 0 <= i < |s| ==> s[i] in cs
    ensures Strip(s, cs) == ""
    decreases |s|
  {
    if s != [] {
      StripAll(s[1..], cs);
    }
  }

  /** Stripping a second time changes nothing. */
  lemma StripIdempotent(s: string, cs: set<char>)
    ensures Strip(Strip(s, cs), cs) == Strip(s, cs)
  {
    StripShape(s, cs);
  }

  /** Stripping keeps a substring, so it adds no character outside `cs2`. */
  lemma StripNoneIn(s: string, cs: set<char>, cs2: set<char>)
    requires NoneIn(s, cs2)
    ensures NoneIn(Strip(s, cs), cs2)
  {
    StripShape(s, cs);
  }

  lemma NoneInAppend(a: string, b: string, cs: set<char>)
    requires NoneIn(a, cs) && NoneIn(b, cs)
    ensures NoneIn(a + b, cs)
  {
    assert forall j :: |a| <= j < |a + b| ==> (a + b)[j] == b[j - |a|];
  }

  /** The filter distributes over concatenation. */
  lemma {:induction false} NonEmptyAppend(a: seq<string>, b: seq<string>)
    ensures NonEmpty(a + b) == NonEmpty(a) + NonEmpty(b)
    decreases |a|
  {
    if a == [] {
      assert a + b == b;
    } else {
      assert (a + b)[1..] == a[1..] + b;
      NonEmptyAppend(a[1..], b);
    }
  }

  /** Every word is non-empty and holds no white space. */
  lemma WordsShape(s: string)
    ensures forall i :: 0 <= i < |Words(s)| ==> |Words(s)[i]| > 0 && NoneIn(Words(s)[i], PySpace)
  {
    SplitPieces(s, PySpace);
    NonEmptyFrom(Split(s, PySpace), PySpace);
  }

  lemma {:induction false} NonEmptyFrom(parts: seq<string>, cs: set<char>)
    requires forall i :: 0 <= i < |parts| ==> NoneIn(parts[i], cs)
    ensures forall i :: 0 <= i < |NonEmpty(parts)| ==> |NonEmpty(parts)[i]| > 0 && NoneIn(NonEmpty(parts)[i], cs)
    decreases |parts|
  {
    if parts != [] {
      NonEmptyFrom(parts[1..], cs);
    }
  }

  /** Splitting across a separator: the pieces before it, then the pieces after it. */
  lemma {:induction false} SplitAt(x: string, c: char, y: string, cs: set<char>)
    requires c in cs
    ensures Split(x + [c] + y, cs) == Split(x, cs) + Split(y, cs)
    decreases |x|
  {
    if x == [] {
      assert x + [c] + y == [c] + y;
      assert ([c] + y)[1..] == y;
    } else {
      var z := x + [c] + y;
      assert z[1..] == x[1..] + [c] + y;
      SplitAt(x[1..], c, y, cs);
    }
  }

  /** A string without separators is a single piece. */
  lemma {:induction false} SplitNone(w: string, cs: set<char>)
    requires NoneIn(w, cs)
    ensures Split(w, cs) == [w]
    decreases |w|
  {
    if w != [] {
      SplitNone(w[1..], cs);
      assert [w[0]] + w[1..] == w;
    }
  }

  /** Python's `s.strip().split()` equals `s.split()`. */
  lemma {:induction false} WordsStrip(s: string)
    ensures Words(PyStrip(s)) == Words(s)
    decreases |s|
  {
    if s != [] && s[0] in PySpace {
      WordsStrip(s[1..]);
      assert Split(s, PySpace) == [""] + Split(s[1..], PySpace);
    } else if s != [] && s[|s| - 1] in PySpace {
      var init := s[..|s| - 1];
      WordsStrip(init);
      assert init + [s[|s| - 1]] + [] == s;
      SplitAt(init, s[|s| - 1], [], PySpace);
      NonEmptyAppend(Split(init, PySpace), [""]);
    }
  }

  /** Words of a string that ends in white space followed by more text. */
  lemma WordsAppend(x: string, c: char, y: string)
    requires c in PySpace
    ensures Words(x + [c] + y) == Words(x) + Words(y)
  {
    SplitAt(x, c, y, PySpace);
    NonEmptyAppend(Split(x, PySpace), Split(y, PySpace));
  }

  /** Words of a string whose first part is empty or ends in white space. */
  lemma WordsConcat(x: string, y: string)
    requires x == [] || x[|x| - 1] in PySpace
    ensures Words(x + y) == Words(x) + Words(y)
  {
    if x == [] {
      assert x + y == y;
    } else {
      var init := x[..|x| - 1];
      assert x + y == init + [x[|x| - 1]] + y;
      assert x == init + [x[|x| - 1]] + [];
      WordsAppend(init, x[|x| - 1], y);
      WordsAppend(init, x[|x| - 1], []);
    }
  }

  /** A single non-empty word with white space around it. */
  lemma WordsOfOne(w: string)
    requires w != [] && NoneIn(w, PySpace)
    ensures Words(w) == [w]
  {
    SplitNone(w, PySpace);
  }
}
