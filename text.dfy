/**
 * The handful of Python string operations the alarm scripts rely on:
 * `str.strip()`, the substring test `t in s`, `os.path.basename`,
 * `os.path.splitext` and `str.split(sep, 1)`.
 */
module Text {

  /** Python's `str.isspace()` for one character, by code point. */
  predicate IsSpace(c: char) {
    var n := c as int;
    (9 <= n <= 13) || (0x1c <= n <= 0x20) || n == 0x85 || n == 0xa0 || n == 0x1680 ||
    (0x2000 <= n <= 0x200a) || n == 0x2028 || n == 0x2029 || n == 0x202f || n == 0x205f ||
    n == 0x3000
  }

  /** `s.strip()`: drops whitespace from both ends. */
  function Strip(s: string): string
    decreases |s|
  {
    if |s| > 0 && IsSpace(s[0]) then Strip(s[1..])
    else if |s| > 0 && IsSpace(s[|s| - 1]) then Strip(s[..|s| - 1])
    else s
  }

  /** Number of leading whitespace characters that `s.strip()` drops. */
  function StripStart(s: string): nat
    decreases |s|
  {
    if |s| > 0 && IsSpace(s[0]) then 1 + StripStart(s[1..]) else 0
  }

  /**
   * `s.strip()` is the slice of `s` that starts and ends with a non-space
   * character, everything outside it being whitespace; it is empty exactly
   * when `s` is all whitespace.
   */
  lemma {:induction false} StripSpec(s: string)
    ensures StripStart(s) + |Strip(s)| <= |s|
    ensures Strip(s) == s[StripStart(s)..StripStart(s) + |Strip(s)|]
    ensures forall i :: 0 <= i < StripStart(s) ==> IsSpace(s[i])
    ensures forall i :: StripStart(s) + |Strip(s)| <= i < |s| ==> IsSpace(s[i])
    ensures Strip(s) == [] || (!IsSpace(Strip(s)[0]) && !IsSpace(Strip(s)[|Strip(s)| - 1]))
    decreases |s|
  {
    if |s| > 0 && IsSpace(s[0]) {
      StripSpec(s[1..]);
      assert forall i :: 1 <= i < |s| ==> s[i] == s[1..][i - 1];
    } else if |s| > 0 && IsSpace(s[|s| - 1]) {
      var t := s[..|s| - 1];
      StripSpec(t);
      assert t[0] == s[0];
      assert forall i :: 0 <= i < |t| ==> s[i] == t[i];
    }
  }

  /** `s.strip()` is empty exactly when `s` is all whitespace. */
  lemma StripEmpty(s: string)
    ensures Strip(s) == [] <==> forall i :: 0 <= i < |s| ==> IsSpace(s[i])
  {
    StripSpec(s);
    if Strip(s) != [] {
      assert Strip(s)[0] == s[StripStart(s)];
    }
  }

  /** `p` is a prefix of `s` (Python's `s.startswith(p)`). */
  predicate StartsWith(s: string, p: string) {
    |p| <= |s| && s[..|p|] == p
  }

  /** Python's substring test `t in s`. */
  predicate Contains(s: string, t: string)
    decreases |s|
  {
    StartsWith(s, t) || (|s| > 0 && Contains(s[1..], t))
  }

  /** `t` occurs in `s` starting at index `i`. */
  predicate OccursAt(s: string, t: string, i: int) {
    0 <= i <= |s| - |t| && s[i..i + |t|] == t
  }

  /** `t in s` holds exactly when `t` occurs in `s` at some position. */
  lemma {:induction false} ContainsSpec(s: string, t: string)
    ensures Contains(s, t) <==> exists i :: OccursAt(s, t, i)
    decreases |s|
  {
    if StartsWith(s, t) {
      assert OccursAt(s, t, 0);
    } else if |s| > 0 {
      var u := s[1..];
      ContainsSpec(u, t);
      if Contains(u, t) {
        var j :| OccursAt(u, t, j);
        assert s[j + 1..j + 1 + |t|] == u[j..j + |t|];
        assert OccursAt(s, t, j + 1);
      }
      if exists i :: OccursAt(s, t, i) {
        var i :| OccursAt(s, t, i);
        assert i != 0;
        assert u[i - 1..i - 1 + |t|] == s[i..i + |t|];
        assert OccursAt(u, t, i - 1);
      }
    } else {
      assert forall i :: OccursAt(s, t, i) ==> i == 0;
    }
  }

  /** A path separator for `os.path.basename` (either slash). */
  predicate IsSep(c: char) {
    c == '/' || c == '\\'
  }

  /** `os.path.basename(p)`: the text after the last separator. */
  function Basename(p: string): (r: string)
    ensures |r| <= |p|
  {
    if |p| == 0 || IsSep(p[|p| - 1]) then [] else Basename(p[..|p| - 1]) + [p[|p| - 1]]
  }

  /** The base name is the longest suffix without a separator. */
  lemma {:induction false} BasenameSpec(p: string)
    ensures Basename(p) == p[|p| - |Basename(p)|..]
    ensures forall i :: 0 <= i < |Basename(p)| ==> !IsSep(Basename(p)[i])
    ensures |Basename(p)| < |p| ==> IsSep(p[|p| - |Basename(p)| - 1])
  {
    if |p| > 0 && !IsSep(p[|p| - 1]) {
      BasenameSpec(p[..|p| - 1]);
    }
  }

  /** Index of the last `c` in `s`, or -1 (Python's `s.rfind(c)`). */
  function LastIndexOf(s: string, c: char): (r: int)
    ensures -1 <= r < |s|
    ensures r >= 0 ==> s[r] == c
  {
    if |s| == 0 then -1
    else if s[|s| - 1] == c then |s| - 1
    else LastIndexOf(s[..|s| - 1], c)
  }

  /** No `c` follows the last one. */
  lemma {:induction false} LastIndexOfSpec(s: string, c: char)
    ensures forall i :: LastIndexOf(s, c) < i < |s| ==> s[i] != c
  {
    if |s| > 0 && s[|s| - 1] != c {
      LastIndexOfSpec(s[..|s| - 1], c);
    }
  }

  /** Index of the first `c` in `s`, or -1 (Python's `s.find(c)`). */
  function IndexOf(s: string, c: char): (r: int)
    ensures -1 <= r < |s|
    ensures r >= 0 ==> s[r] == c
  {
    if |s| == 0 then -1
    else if s[0] == c then 0
    else
      var r := IndexOf(s[1..], c);
      if r < 0 then -1 else r + 1
  }

  /** No `c` precedes the first one; -1 means there is none. */
  lemma {:induction false} IndexOfSpec(s: string, c: char)
    ensures forall i :: 0 <= i < |s| && (IndexOf(s, c) < 0 || i < IndexOf(s, c)) ==> s[i] != c
  {
    if |s| > 0 && s[0] != c {
      IndexOfSpec(s[1..], c);
      assert forall i :: 1 <= i < |s| ==> s[i] == s[1..][i - 1];
    }
  }

  /**
   * `os.path.splitext(b)` for a name without separators: `(root, ext)` with
   * `root + ext == b`, where `ext` runs from the last dot, provided some
   * non-dot character precedes that dot (so ".bashrc" has no extension).
   */
  function SplitExt(b: string): (r: (string, string))
    ensures r.0 + r.1 == b
  {
    var d := LastIndexOf(b, '.');
    if d > 0 && exists k :: 0 <= k < d && b[k] != '.' then
      (b[..d], b[d..])
    else
      (b, [])
  }

  /**
   * The extension is empty or one dot followed by no other dot; it is
   * non-empty exactly when some dot comes after a non-dot character.
   */
  lemma SplitExtSpec(b: string)
    ensures var r := SplitExt(b);
      && (r.1 == [] || (r.1[0] == '.' && forall i :: 1 <= i < |r.1| ==> r.1[i] != '.'))
      && (r.1 != [] ==> exists k :: 0 <= k < |r.0| && r.0[k] != '.')
      && (r.1 == [] <==> forall k, i :: 0 <= k < i < |b| && b[k] != '.' ==> b[i] != '.')
  {
    var d := LastIndexOf(b, '.');
    LastIndexOfSpec(b, '.');
    if !(d > 0 && exists k :: 0 <= k < d && b[k] != '.') {
      assert forall k, i :: 0 <= k < i < |b| && b[k] != '.' ==> b[i] != '.';
    }
  }

  /** `s.split(c, 1)[1]` for an `s` that holds `c`: the text after the first `c`. */
  function AfterFirst(s: string, c: char): (r: string)
    requires c in s
    ensures |r| < |s|
  {
    IndexOfSpec(s, c);
    s[IndexOf(s, c) + 1..]
  }

  /** The text after the first `c` is a suffix just behind a `c`, with no `c` before that one. */
  lemma AfterFirstSpec(s: string, c: char)
    requires c in s
    ensures var r := AfterFirst(s, c);
      && r == s[|s| - |r|..]
      && s[|s| - |r| - 1] == c
      && forall i :: 0 <= i < |s| - |r| - 1 ==> s[i] != c
  {
    IndexOfSpec(s, c);
  }
}
