/**
 * The .NET framework routines on strings and paths that the site-extension
 * code calls: `string.Equals` with `StringComparison.OrdinalIgnoreCase`,
 * `string.IsNullOrWhiteSpace` and the three-argument `Path.Combine` (Windows
 * separators, as in .NET Framework).
 */
module NetText {
  import opened Nullable

  /** Upper-case mapping of ordinal case-insensitive comparison, on ASCII letters. */
  function UpperAscii(c: char): char {
    if 'a' <= c <= 'z' then (c as int - 32) as char else c
  }

  predicate SameIgnoringCase(x: string, y: string) {
    |x| == |y| && forall i :: 0 <= i < |x| ==> UpperAscii(x[i]) == UpperAscii(y[i])
  }

  /**
   * `string.Equals(a, b, StringComparison.OrdinalIgnoreCase)`: two nulls are
   * equal, a null never equals a string.
   */
  predicate EqualsIgnoreCase(a: Option<string>, b: Option<string>) {
    match (a, b)
    case (None, None) => true
    case (Some(x), Some(y)) => SameIgnoringCase(x, y)
    case _ => false
  }

  /** `char.IsWhiteSpace`: the Unicode space, line and paragraph separators, U+0009..U+000D and U+0085. */
  predicate IsWhiteSpace(c: char) {
    var n := c as int;
    (0x09 <= n <= 0x0D) || n == 0x20 || n == 0x85 || n == 0xA0 || n == 0x1680
    || (0x2000 <= n <= 0x200A) || n == 0x2028 || n == 0x2029 || n == 0x202F
    || n == 0x205F || n == 0x3000
  }

  /** `string.IsNullOrWhiteSpace(s)`: null, empty, or white space only. */
  predicate IsNullOrWhiteSpace(s: Option<string>) {
    s.None? || forall i :: 0 <= i < |s.value| ==> IsWhiteSpace(s.value[i])
  }

  const DirectorySeparatorChar := '\\'
  const AltDirectorySeparatorChar := '/'
  const VolumeSeparatorChar := ':'

  predicate IsDirectorySeparator(c: char) {
    c == DirectorySeparatorChar || c == AltDirectorySeparatorChar
  }

  /** `Path.IsPathRooted` on Windows: a leading separator or a drive letter. */
  predicate IsPathRooted(path: string) {
    (|path| >= 1 && IsDirectorySeparator(path[0])) || (|path| >= 2 && path[1] == VolumeSeparatorChar)
  }

  /**
   * Two-argument `Path.Combine`: an empty part is skipped, a rooted second
   * part discards the first, and a separator is inserted unless the first
   * part already ends with one (or with a volume separator).
   */
  function CombineTwo(path1: string, path2: string): (path: string)
    ensures |path| >= |path2| && path[|path| - |path2|..] == path2
    ensures !IsPathRooted(path2) ==> |path| >= |path1| && path[..|path1|] == path1
    ensures IsPathRooted(path2) && |path1| > 0 ==> path == path2
  {
    if |path2| == 0 then path1
    else if |path1| == 0 then path2
    else if IsPathRooted(path2) then path2
    else
      var last := path1[|path1| - 1];
      if IsDirectorySeparator(last) || last == VolumeSeparatorChar then path1 + path2
      else path1 + [DirectorySeparatorChar] + path2
  }

  /**
   * Three-argument `Path.Combine`, which combines left to right: the result
   * ends with the last part, and starts with the first unless a later part
   * is rooted.
   */
  function Combine(path1: string, path2: string, path3: string): (path: string)
    ensures |path| >= |path3| && path[|path| - |path3|..] == path3
    ensures !IsPathRooted(path2) && !IsPathRooted(path3) ==> |path| >= |path1| && path[..|path1|] == path1
  {
    CombineTwo(CombineTwo(path1, path2), path3)
  }
}
