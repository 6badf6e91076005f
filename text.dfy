/**
 * String helpers that stand for the Python and JavaScript string methods the
 * source uses: whitespace stripping (`str.strip`, `String.prototype.trim`),
 * ASCII lower-casing, `endswith`, substring search, `str.split` on one
 * separator, UTF-16 length (`String.prototype.length`) and code-point order
 * (Python's `<` on `str`).
 */
module Text {

  /** Python's `str.isspace`: the characters `str.strip()` removes. */
  predicate IsPySpace(c: char) {
    var n := c as int;
    (0x09 <= n <= 0x0D) || (0x1C <= n <= 0x20) || n == 0x85 || n == 0xA0 || n == 0x1680
    || (0x2000 <= n <= 0x200A) || n == 0x2028 || n == 0x2029 || n == 0x202F || n == 0x205F || n == 0x3000
  }

  /** JavaScript's WhiteSpace and LineTerminator: what `trim()` removes and `\s` matches. */
  predicate IsJsSpace(c: char) {
    var n := c as int;
    (0x09 <= n <= 0x0D) || n == 0x20 || n == 0xA0 || n == 0x1680 || (0x2000 <= n <= 0x200A)
    || n == 0x2028 || n == 0x2029 || n == 0x202F || n == 0x205F || n == 0x3000 || n == 0xFEFF
  }

  /** Number of leading characters of `s` that satisfy `ws`. */
  function LeadingCount(s: string, ws: char -> bool): (n: nat)
    ensures n <= |s|
    ensures forall k :: 0 <= k < n ==> ws(s[k])
    ensures n < |s| ==> !ws(s[n])
  {
    if s == [] || !ws(s[0]) then 0 else 1 + LeadingCount(s[1..], ws)
  }

  /** Length of `s` once its trailing characters satisfying `ws` are dropped. */
  function TrailingStart(s: string, ws: char -> bool): (n: nat)
    ensures n <= |s|
    ensures forall k :: n <= k < |s| ==> ws(s[k])
    ensures n > 0 ==> !ws(s[n - 1])
  {
    if s == [] || !ws(s[|s| - 1]) then |s| else TrailingStart(s[..|s| - 1], ws)
  }

  /** `s` with both ends stripped of the characters satisfying `ws`. */
  function Strip(s: string, ws: char -> bool): (r: string)
    ensures |r| <= |s|
    ensures r == [] <==> forall k :: 0 <= k < |s| ==> ws(s[k])
    ensures r != [] ==> !ws(r[0]) && !ws(r[|r| - 1])
    ensures r != [] ==> r == s[LeadingCount(s, ws)..TrailingStart(s, ws)]
  {
    var i := LeadingCount(s, ws);
    var j := TrailingStart(s, ws);
    if i < j then s[i..j] else []
  }

  /** Python `str.strip()` with no argument. */
  function PyStrip(s: string): string {
    Strip(s, IsPySpace)
  }

  /** JavaScript `String.prototype.trim()`. */
  function JsTrim(s: string): string {
    Strip(s, IsJsSpace)
  }

  /** A string that neither starts nor ends with white space is its own strip. */
  lemma StripUnpadded(s: string, ws: char -> bool)
    requires s != [] && !ws(s[0]) && !ws(s[|s| - 1])
    ensures Strip(s, ws) == s
  {
    assert LeadingCount(s, ws) == 0;
    assert TrailingStart(s, ws) == |s|;
    assert s[0..|s|] == s;
  }

  /** Stripping twice is the same as stripping once. */
  lemma {:induction false} StripIdempotent(s: string, ws: char -> bool)
    ensures Strip(Strip(s, ws), ws) == Strip(s, ws)
  {
    var r := Strip(s, ws);
    if r != [] {
      assert LeadingCount(r, ws) == 0;
      assert TrailingStart(r, ws) == |r|;
      assert r[0..|r|] == r;
    }
  }

  function LowerChar(c: char): char {
    if 'A' <= c <= 'Z' then (c as int + 32) as char else c
  }

  /** `str.lower()` on the ASCII letters. */
  function ToLower(s: string): (r: string)
    ensures |r| == |s|
    ensures forall k :: 0 <= k < |s| ==> r[k] == LowerChar(s[k])
  {
    seq(|s|, k requires 0 <= k < |s| => LowerChar(s[k]))
  }

  predicate EndsWith(s: string, suffix: string) {
    |suffix| <= |s| && s[|s| - |suffix|..] == suffix
  }

  /** Substring search: Python `in` on `str`, Django's `contains`. */
  predicate Contains(s: string, sub: string) {
    exists i :: 0 <= i <= |s| - |sub| && OccursAt(s, sub, i)
  }

  predicate OccursAt(s: string, sub: string, i: int)
    requires 0 <= i <= |s| - |sub|
  {
    s[i..i + |sub|] == sub
  }

  /** Joins `pieces` with `sep` between consecutive pieces. */
  function Join(pieces: seq<string>, sep: char): string {
    if |pieces| == 0 then ""
    else if |pieces| == 1 then pieces[0]
    else pieces[0] + [sep] + Join(pieces[1..], sep)
  }

  /** `sep` does not occur in `p`. */
  predicate NoSep(p: string, sep: char) {
    forall i :: 0 <= i < |p| ==> p[i] != sep
  }

  /** Python `s.split(sep)` for a one-character separator. */
  function Split(s: string, sep: char): (r: seq<string>)
    ensures |r| >= 1
    ensures forall k :: 0 <= k < |r| ==> NoSep(r[k], sep)
    ensures Join(r, sep) == s
  {
    if s == [] then [[]]
    else
      var rest := Split(s[1..], sep);
      if s[0] == sep then
        assert Join([[]] + rest, sep) == [] + [sep] + Join(rest, sep);
        [[]] + rest
      else
        var first := [s[0]] + rest[0];
        var r := [first] + rest[1..];
        assert |rest| == 1 ==> Join(r, sep) == first;
        assert |rest| > 1 ==> Join(r, sep) == first + [sep] + Join(rest[1..], sep);
        assert |rest| > 1 ==> Join(rest, sep) == rest[0] + [sep] + Join(rest[1..], sep);
        r
  }

  /** Splitting a joined list gives back the pieces when no piece holds the separator. */
  lemma {:induction false} SplitJoin(pieces: seq<string>, sep: char)
    requires |pieces| >= 1
    requires forall k :: 0 <= k < |pieces| ==> NoSep(pieces[k], sep)
    ensures Split(Join(pieces, sep), sep) == pieces
    decreases |pieces|, |pieces[0]|
  {
    if |pieces| == 1 {
      SplitNoSep(pieces[0], sep);
    } else if pieces[0] == [] {
      var tail := pieces[1..];
      SplitJoin(tail, sep);
      assert Join(pieces, sep) == [sep] + Join(tail, sep);
      assert ([sep] + Join(tail, sep))[1..] == Join(tail, sep);
    } else {
      var shorter := [pieces[0][1..]] + pieces[1..];
      assert NoSep(shorter[0], sep) by {
        assert NoSep(pieces[0], sep);
      }
      assert forall k :: 1 <= k < |shorter| ==> shorter[k] == pieces[k];
      SplitJoin(shorter, sep);
      var s := Join(pieces, sep);
      assert s[1..] == Join(shorter, sep) by {
        assert s == [pieces[0][0]] + Join(shorter, sep);
      }
      assert [pieces[0][0]] + pieces[0][1..] == pieces[0];
    }
  }

  lemma {:induction false} SplitNoSep(s: string, sep: char)
    requires NoSep(s, sep)
    ensures Split(s, sep) == [s]
  {
    if s != [] {
      SplitNoSep(s[1..], sep);
      assert [s[0]] + s[1..] == s;
    }
  }

  /** JavaScript `length`: characters outside the Basic Multilingual Plane take two UTF-16 units. */
  function Utf16Length(s: string): (n: nat)
    ensures |s| <= n <= 2 * |s|
  {
    if s == [] then 0 else Utf16Length(s[..|s| - 1]) + (if s[|s| - 1] as int > 0xFFFF then 2 else 1)
  }

  /** A string made only of characters beyond the Basic Multilingual Plane takes two units per character. */
  lemma {:induction false} Utf16LengthAstral(s: string)
    requires forall k :: 0 <= k < |s| ==> s[k] as int > 0xFFFF
    ensures Utf16Length(s) == 2 * |s|
  {
    if s != [] { Utf16LengthAstral(s[..|s| - 1]); }
  }

  /** Python's order on `str`: code point by code point, a proper prefix first. */
  predicate LexLess(a: string, b: string) {
    if a == [] then b != []
    else b != [] && (a[0] < b[0] || (a[0] == b[0] && LexLess(a[1..], b[1..])))
  }

  lemma {:induction false} LexLessIrreflexive(a: string)
    ensures !LexLess(a, a)
  {
    if a != [] { LexLessIrreflexive(a[1..]); }
  }

  lemma {:induction false} LexLessTransitive(a: string, b: string, c: string)
    requires LexLess(a, b) && LexLess(b, c)
    ensures LexLess(a, c)
  {
    if a != [] && a[0] == b[0] && b[0] == c[0] {
      LexLessTransitive(a[1..], b[1..], c[1..]);
    }
  }

  lemma {:induction false} LexLessTotal(a: string, b: string)
    ensures a == b || LexLess(a, b) || LexLess(b, a)
  {
    if a != [] && b != [] && a[0] == b[0] {
      LexLessTotal(a[1..], b[1..]);
      if a[1..] == b[1..] {
        assert a == [a[0]] + a[1..] && b == [b[0]] + b[1..];
      }
    }
  }
}
