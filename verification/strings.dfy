/** The string operations the pipeline relies on: `strip` (Python) and
    `trim` (JavaScript), `lower`, `upper`, `startswith`, the `in` substring
    test, prefix slicing and the decimal rendering of a number. Whitespace
    is each runtime's own set; letter case is ASCII only (Python's Unicode
    case tables are not modelled). */
module Strings {

  /** Whose notion of whitespace a strip uses: Python's `str.strip()` or
      JavaScript's `String.prototype.trim()`. */
  datatype Whitespace = Python | JavaScript

  /** The characters both runtimes strip: the controls tab to carriage
      return, the space separators (category Zs) and the line and paragraph
      separators. */
  predicate IsCommonSpace(c: char) {
    || ('\t' <= c <= '\r') || c == ' ' || c == '\U{A0}' || c == '\U{1680}'
    || ('\U{2000}' <= c <= '\U{200A}') || c == '\U{2028}' || c == '\U{2029}'
    || c == '\U{202F}' || c == '\U{205F}' || c == '\U{3000}'
  }

  /** Python also strips the information separators U+001C..U+001F and
      NEXT LINE (U+0085); JavaScript also strips the byte-order mark
      (U+FEFF). */
  predicate IsSpace(w: Whitespace, c: char) {
    || IsCommonSpace(c)
    || (w == Python && (('\U{1C}' <= c <= '\U{1F}') || c == '\U{85}'))
    || (w == JavaScript && c == '\U{FEFF}')
  }

  predicate AllSpace(w: Whitespace, s: string) {
    forall i :: 0 <= i < |s| ==> IsSpace(w, s[i])
  }

  /** `s.lstrip()`. */
  function LStrip(w: Whitespace, s: string): string {
    if |s| > 0 && IsSpace(w, s[0]) then LStrip(w, s[1..]) else s
  }

  /** `s.rstrip()`. */
  function RStrip(w: Whitespace, s: string): string {
    if |s| > 0 && IsSpace(w, s[|s| - 1]) then RStrip(w, s[..|s| - 1]) else s
  }

  /** `lstrip` removes the leading whitespace and nothing else. */
  lemma {:induction false} LStripDrops(w: Whitespace, s: string)
    ensures var r := LStrip(w, s);
      |r| <= |s| && r == s[|s| - |r|..] && AllSpace(w, s[..|s| - |r|]) && (r == [] || !IsSpace(w, r[0]))
  {
    if |s| > 0 && IsSpace(w, s[0]) {
      LStripDrops(w, s[1..]);
      var r := LStrip(w, s);
      assert s[..|s| - |r|] == [s[0]] + s[1..][..|s| - 1 - |r|];
    }
  }

  /** `rstrip` removes the trailing whitespace and nothing else. */
  lemma {:induction false} RStripDrops(w: Whitespace, s: string)
    ensures var r := RStrip(w, s);
      |r| <= |s| && r == s[..|r|] && AllSpace(w, s[|r|..]) && (r == [] || !IsSpace(w, r[|r| - 1]))
  {
    if |s| > 0 && IsSpace(w, s[|s| - 1]) {
      RStripDrops(w, s[..|s| - 1]);
      var r := RStrip(w, s);
      assert s[|r|..] == s[..|s| - 1][|r|..] + [s[|s| - 1]];
    }
  }

  /** `s.strip()` in Python, `s.trim()` in JavaScript. */
  function Strip(w: Whitespace, s: string): string {
    RStrip(w, LStrip(w, s))
  }

  /** What `strip` keeps: a contiguous piece of `s` with whitespace only
      around it and none at its ends. */
  lemma StripIsTrimmedSlice(w: Whitespace, s: string)
    ensures var r := Strip(w, s);
      exists a :: 0 <= a <= |s| - |r| && r == s[a..a + |r|]
        && AllSpace(w, s[..a]) && AllSpace(w, s[a + |r|..])
    ensures Strip(w, s) == [] || (!IsSpace(w, Strip(w, s)[0]) && !IsSpace(w, Strip(w, s)[|Strip(w, s)| - 1]))
  {
    var l := LStrip(w, s);
    var r := RStrip(w, l);
    LStripDrops(w, s);
    RStripDrops(w, l);
    var a := |s| - |l|;
    assert r == s[a..a + |r|];
    assert s[a + |r|..] == l[|r|..];
  }

  /** A string is stripped to nothing exactly when it is all whitespace. */
  lemma StripEmptyIffAllSpace(w: Whitespace, s: string)
    ensures Strip(w, s) == [] <==> AllSpace(w, s)
  {
    var l := LStrip(w, s);
    LStripDrops(w, s);
    RStripDrops(w, l);
    if Strip(w, s) == [] {
      assert l[0..] == l;
      assert l == [];
      assert s[..|s|] == s;
    } else {
      assert s[|s| - |l|] == l[0];
    }
  }

  /** Stripping twice is stripping once. */
  lemma {:induction false} StripIdempotent(w: Whitespace, s: string)
    ensures Strip(w, Strip(w, s)) == Strip(w, s)
  {
    var r := Strip(w, s);
    StripIsTrimmedSlice(w, s);
    if r != [] {
      assert LStrip(w, r) == r;
      assert RStrip(w, r) == r;
    }
  }

  /** The two runtimes disagree on the information separators: Python strips
      them and JavaScript keeps them, and the other way round for the
      byte-order mark. */
  lemma SeparatorsDiffer()
    ensures Strip(Python, "\U{1C}") == "" && Strip(JavaScript, "\U{1C}") == "\U{1C}"
    ensures Strip(Python, "\U{FEFF}") == "\U{FEFF}" && Strip(JavaScript, "\U{FEFF}") == ""
  {
    assert "\U{1C}"[1..] == "" && "\U{FEFF}"[1..] == "";
  }

  function LowerChar(c: char): char {
    if 'A' <= c <= 'Z' then (c as int - 'A' as int + 'a' as int) as char else c
  }

  function UpperChar(c: char): char {
    if 'a' <= c <= 'z' then (c as int - 'a' as int + 'A' as int) as char else c
  }

  /** `s.lower()` on ASCII letters. */
  function Lower(s: string): (r: string)
    ensures |r| == |s|
    ensures forall i :: 0 <= i < |s| ==> r[i] == LowerChar(s[i])
  {
    seq(|s|, i requires 0 <= i < |s| => LowerChar(s[i]))
  }

  /** `s.upper()` on ASCII letters. */
  function Upper(s: string): (r: string)
    ensures |r| == |s|
    ensures forall i :: 0 <= i < |s| ==> r[i] == UpperChar(s[i])
  {
    seq(|s|, i requires 0 <= i < |s| => UpperChar(s[i]))
  }

  /** `s.startswith(p)`. */
  predicate StartsWith(s: string, p: string) {
    |p| <= |s| && s[..|p|] == p
  }

  /** `p` occurs in `s` starting at position `i`. */
  predicate OccursAt(s: string, p: string, i: int) {
    0 <= i <= |s| - |p| && s[i..i + |p|] == p
  }

  /** `p in s` (Python) and `s.includes(p)` (JavaScript). */
  predicate Contains(s: string, p: string) {
    exists i | 0 <= i <= |s| - |p| :: OccursAt(s, p, i)
  }

  /** `s[:n]` for `n >= 0`, as Python and JavaScript's `slice(0, n)` take it. */
  function Take<T>(s: seq<T>, n: nat): (r: seq<T>)
    ensures |r| == if n < |s| then n else |s|
    ensures r == s[..|r|]
  {
    if n < |s| then s[..n] else s
  }

  /** `s[-n:]` for `n >= 0`: the last `min(n, |s|)` elements. */
  function Last<T>(s: seq<T>, n: nat): (r: seq<T>)
    ensures |r| == if n < |s| then n else |s|
    ensures r == s[|s| - |r|..]
  {
    if n < |s| then s[|s| - n..] else s
  }

  /** The number a string of decimal digits spells. */
  function DigitsValue(s: string): nat
    requires forall i :: 0 <= i < |s| ==> '0' <= s[i] <= '9'
  {
    if |s| == 0 then 0 else 10 * DigitsValue(s[..|s| - 1]) + (s[|s| - 1] as int - '0' as int)
  }

  /** `String(n)` for a natural number: its decimal digits, without leading
      zeros. */
  function NatToString(n: nat): (r: string)
    ensures |r| > 0
    ensures forall i :: 0 <= i < |r| ==> '0' <= r[i] <= '9'
    ensures DigitsValue(r) == n
    ensures |r| == 1 || r[0] != '0'
  {
    var d := ['0', '1', '2', '3', '4', '5', '6', '7', '8', '9'][n % 10];
    if n < 10 then [d]
    else
      var p := NatToString(n / 10);
      assert (p + [d])[..|p|] == p;
      p + [d]
  }

  /** The second and fourth pieces of a five-piece concatenation occur in it
      where they are placed. */
  lemma OccursInFrame(a: string, x: string, b: string, y: string, c: string)
    ensures OccursAt(a + x + b + y + c, x, |a|)
    ensures OccursAt(a + x + b + y + c, y, |a| + |x| + |b|)
  {
    var w := a + x + b + y + c;
    assert w[|a|..|a| + |x|] == x;
    assert w[|a| + |x| + |b|..|a| + |x| + |b| + |y|] == y;
  }

  /** The second, fourth and sixth pieces of a seven-piece concatenation
      occur in it where they are placed. */
  lemma OccursInFrame7(a: string, x: string, b: string, y: string, c: string, z: string, d: string)
    ensures OccursAt(a + x + b + y + c + z + d, x, |a|)
    ensures OccursAt(a + x + b + y + c + z + d, y, |a| + |x| + |b|)
    ensures OccursAt(a + x + b + y + c + z + d, z, |a| + |x| + |b| + |y| + |c|)
  {
    var w := a + x + b + y + c + z + d;
    assert w[|a|..|a| + |x|] == x;
    assert w[|a| + |x| + |b|..|a| + |x| + |b| + |y|] == y;
    assert w[|a| + |x| + |b| + |y| + |c|..|a| + |x| + |b| + |y| + |c| + |z|] == z;
  }
}
