/**
 * The two functions of Python's `posixpath` module that the transcription
 * handler applies to an object name: `basename` and `splitext`, and
 * which paths name a directory rather than a file.
 */
module PosixPath {
  import opened Strings

  /** `basename(p)`: the text after the last '/'. */
  function Basename(p: string): string
  {
    p[LastIndexOf(p, '/') + 1..]
  }

  /**
   * The base name is a suffix of `p` without '/', and it is all of `p`
   * or is preceded by a '/'.
   */
  lemma BasenameShape(p: string)
    ensures var b := Basename(p);
      '/' !in b && |b| <= |p| && b == p[|p| - |b|..] &&
      (|b| < |p| ==> p[|p| - |b| - 1] == '/')
  {
    var i := LastIndexOf(p, '/') + 1;
    assert forall k :: 0 <= k < |p[i..]| ==> p[i..][k] == p[i + k];
  }

  /**
   * The last component of `p` is empty, `.` or `..`, so `p` names a
   * directory and opening it as a file raises `IsADirectoryError`.
   */
  predicate NamesDirectory(p: string)
  {
    var b := Basename(p);
    |b| <= 2 && forall k :: 0 <= k < |b| ==> b[k] == '.'
  }

  /** Some character of `p[lo..hi]` is not a dot. */
  predicate HasNonDot(p: string, lo: int, hi: int)
    requires 0 <= lo <= hi <= |p|
  {
    exists k :: lo <= k < hi && p[k] != '.'
  }

  /**
   * `splitext(p)`: the extension is the text from the last '.' on, provided
   * that dot lies after the last '/' and the final path component has a
   * character other than '.' before it (leading dots do not start an
   * extension). Otherwise the extension is empty and the root is `p`.
   */
  function SplitExt(p: string): (r: (string, string))
    ensures r.0 + r.1 == p
    ensures r.1 == "" || (r.1[0] == '.' && '.' !in r.1[1..] && '/' !in r.1)
  {
    var sepIndex := LastIndexOf(p, '/');
    var dotIndex := LastIndexOf(p, '.');
    if dotIndex > sepIndex && HasNonDot(p, sepIndex + 1, dotIndex) then
      assert p == p[..dotIndex] + p[dotIndex..];
      (p[..dotIndex], p[dotIndex..])
    else
      (p, "")
  }

  /** Removing a dot-free extension from a name whose stem has a non-dot character. */
  lemma SplitExtOfStemAndExtension(stem: string, ext: string)
    requires '/' !in stem && '/' !in ext && '.' !in ext
    requires exists k :: 0 <= k < |stem| && stem[k] != '.'
    ensures SplitExt(stem + "." + ext) == (stem, "." + ext)
  {
    var p := stem + "." + ext;
    var k :| 0 <= k < |stem| && stem[k] != '.';
    assert p[k] == stem[k];
    assert p[|stem|] == '.';
    assert forall j :: |stem| < j < |p| ==> p[j] == ext[j - |stem| - 1];
    assert LastIndexOf(p, '.') == |stem|;
    assert forall j :: 0 <= j < |p| ==> p[j] != '/';
    assert LastIndexOf(p, '/') == -1;
    assert HasNonDot(p, 0, |stem|);
    assert p[..|stem|] == stem && p[|stem|..] == "." + ext;
  }

  /** A name with no dot after its last '/' has an empty extension. */
  lemma SplitExtNoDot(p: string)
    requires '.' !in p[LastIndexOf(p, '/') + 1..]
    ensures SplitExt(p) == (p, "")
  {
    var s := LastIndexOf(p, '/');
    var d := LastIndexOf(p, '.');
    if d > s {
      assert p[s + 1..][d - s - 1] == p[d];
    }
  }

  /**
   * A name whose characters before its last '.' are all dots (`.wav`,
   * `..bashrc`) has no extension: the leading dots belong to the name.
   */
  lemma SplitExtLeadingDots(p: string)
    requires '/' !in p
    requires forall k :: 0 <= k < LastIndexOf(p, '.') ==> p[k] == '.'
    ensures SplitExt(p) == (p, "")
  {
    assert LastIndexOf(p, '/') == -1;
  }
}
