/** The string operations the session manager relies on: lower-casing,
    substring tests and Windows path handling (`ntpath`). */
module Text {

  /** `str.lower()` on one character; only ASCII letters are folded. */
  function LowerChar(c: char): char
  {
    if 'A' <= c <= 'Z' then (c as int + 32) as char else c
  }

  function Lower(s: string): string
  {
    seq(|s|, i requires 0 <= i < |s| => LowerChar(s[i]))
  }

  predicate StartsWith(s: string, prefix: string)
  {
    |prefix| <= |s| && s[..|prefix|] == prefix
  }

  predicate EndsWith(s: string, suffix: string)
  {
    |suffix| <= |s| && s[|s| - |suffix|..] == suffix
  }

  /** Python's `part in s`. */
  predicate Contains(s: string, part: string)
    decreases |s|
  {
    StartsWith(s, part) || (|s| > 0 && Contains(s[1..], part))
  }

  predicate IsSep(c: char)
  {
    c == '\\' || c == '/'
  }

  /** The text after the last path separator of `q`. */
  function AfterLastSep(q: string): string
  {
    if q == [] || IsSep(q[|q| - 1]) then []
    else AfterLastSep(q[..|q| - 1]) + [q[|q| - 1]]
  }

  /** `AfterLastSep` is the longest separator-free tail of `q`. */
  lemma {:induction false} AfterLastSepShape(q: string)
    ensures EndsWith(q, AfterLastSep(q))
    ensures forall i :: 0 <= i < |AfterLastSep(q)| ==> !IsSep(AfterLastSep(q)[i])
    ensures |AfterLastSep(q)| < |q| ==> IsSep(q[|q| - |AfterLastSep(q)| - 1])
  {
    if q != [] && !IsSep(q[|q| - 1]) {
      var init := q[..|q| - 1];
      AfterLastSepShape(init);
      var r := AfterLastSep(init);
      assert q[|q| - |r| - 1..] == init[|init| - |r|..] + [q[|q| - 1]];
    }
  }

  /** `os.path.basename` on Windows: a drive prefix such as `C:` is dropped,
      then everything up to the last `\` or `/`. */
  function Basename(p: string): string
  {
    var q := if |p| >= 2 && p[1] == ':' then p[2..] else p;
    AfterLastSep(q)
  }

  /** A basename is a separator-free tail of its path. */
  lemma BasenameShape(p: string)
    ensures EndsWith(p, Basename(p))
    ensures forall i :: 0 <= i < |Basename(p)| ==> !IsSep(Basename(p)[i])
  {
    var q := if |p| >= 2 && p[1] == ':' then p[2..] else p;
    AfterLastSepShape(q);
    assert EndsWith(p, q);
  }

  /** `os.path.join(a, b)` on Windows for two components: a separator is
      inserted unless `a` is empty, a bare drive, or already ends in one; a
      second component with a drive or a leading separator replaces `a`. */
  function Join(a: string, b: string): string
  {
    if (|b| >= 2 && b[1] == ':') || (|b| > 0 && IsSep(b[0])) then b
    else if a == [] || IsSep(a[|a| - 1]) || (|a| == 2 && a[1] == ':') then a + b
    else a + "\\" + b
  }

  /** `os.path.normcase` on Windows: lower-case, and `/` becomes `\`. */
  function NormCase(s: string): string
  {
    seq(|s|, i requires 0 <= i < |s| => if s[i] == '/' then '\\' else LowerChar(s[i]))
  }
}
