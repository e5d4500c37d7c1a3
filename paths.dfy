/** The string handling ModContext.cs does on file locations: separators, trimming,
    splitting, file names, and the derivation of a package key from a plugin's location. */
module Paths {

  /** `ModContext.FileSeperators`: `'/'` and `'\\'`. */
  predicate IsSeparator(c: char)
  {
    c == '/' || c == '\\'
  }

  predicate NoSeparator(s: string)
  {
    forall i | 0 <= i < |s| :: !IsSeparator(s[i])
  }

  /** The leading-separator half of `s.Trim(FileSeperators)`. */
  function TrimStart(s: string): (r: string)
    ensures |r| <= |s| && r == s[|s| - |r|..]
    ensures r == [] || !IsSeparator(r[0])
    ensures forall i | 0 <= i < |s| - |r| :: IsSeparator(s[i])
  {
    if s != [] && IsSeparator(s[0]) then TrimStart(s[1..]) else s
  }

  /** The trailing-separator half of `s.Trim(FileSeperators)`. */
  function TrimEnd(s: string): (r: string)
    ensures r <= s
    ensures r == [] || !IsSeparator(r[|r| - 1])
    ensures forall i | |r| <= i < |s| :: IsSeparator(s[i])
  {
    if s != [] && IsSeparator(s[|s| - 1]) then TrimEnd(s[..|s| - 1]) else s
  }

  /** `s.Trim(FileSeperators)`. */
  function Trim(s: string): (r: string)
    ensures |r| <= |s|
    ensures r == [] || (!IsSeparator(r[0]) && !IsSeparator(r[|r| - 1]))
  {
    TrimEnd(TrimStart(s))
  }

  /** `s.Split(FileSeperators).First()`: the text before the first separator. */
  function FirstSegment(s: string): (r: string)
    ensures r <= s && NoSeparator(r)
    ensures |r| == |s| || IsSeparator(s[|r|])
  {
    if s == [] || IsSeparator(s[0]) then [] else [s[0]] + FirstSegment(s[1..])
  }

  /** The first segment is determined by its contract: a separator-free prefix that ends the
      string or stops at a separator. */
  lemma FirstSegmentOf(s: string, k: string)
    requires k <= s && NoSeparator(k)
    requires |k| == |s| || IsSeparator(s[|k|])
    ensures FirstSegment(s) == k
  {
  }

  /** Trimming stops at the first non-separator. */
  lemma TrimStartAfterSeparator(sep: char, s: string)
    requires IsSeparator(sep) && s != [] && !IsSeparator(s[0])
    ensures TrimStart([sep] + s) == s
  {
    assert ([sep] + s)[1..] == s;
  }

  /** Trailing trimming never reaches into a prefix whose last character is not a separator. */
  lemma TrimEndKeepsPrefix(k: string, s: string)
    requires k != [] && k <= s && !IsSeparator(k[|k| - 1])
    ensures k <= TrimEnd(s)
  {
    var r := TrimEnd(s);
    assert s[|k| - 1] == k[|k| - 1];
  }

  /** `Path.GetFileName(path)`, and `new DirectoryInfo(path).Name` for a path without a
      trailing separator: the text after the last separator. */
  function FileName(path: string): (name: string)
    ensures |name| <= |path| && NoSeparator(name)
  {
    if path == [] || IsSeparator(path[|path| - 1]) then []
    else FileName(path[..|path| - 1]) + [path[|path| - 1]]
  }

  /** The separator-free end of a path is all of it or follows a separator. */
  ghost predicate IsLastSegment(path: string, n: string)
  {
    && |n| <= |path| && n == path[|path| - |n|..]
    && NoSeparator(n)
    && (|n| == |path| || IsSeparator(path[|path| - |n| - 1]))
  }

  /** A non-separator character extends the last segment of the path it is appended to. */
  lemma LastSegmentStep(init: string, last: char, r: string)
    requires !IsSeparator(last) && IsLastSegment(init, r)
    ensures IsLastSegment(init + [last], r + [last])
  {
    var path, n := init + [last], r + [last];
    assert path[|path| - |n|..] == init[|init| - |r|..] + [last];
    assert forall i | 0 <= i < |r| :: n[i] == r[i];
    assert |r| < |init| ==> path[|path| - |n| - 1] == init[|init| - |r| - 1];
  }

  /** The file name is the separator-free end of the path, and it is all of the path or
      follows a separator. */
  lemma {:induction false} FileNameIsLastSegment(path: string)
    ensures IsLastSegment(path, FileName(path))
  {
    if path != [] && !IsSeparator(path[|path| - 1]) {
      var init, last := path[..|path| - 1], path[|path| - 1];
      FileNameIsLastSegment(init);
      assert path == init + [last];
      LastSegmentStep(init, last, FileName(init));
    }
  }

  /** `name.StartsWith(".") || name.StartsWith("_")`: the disabled or hidden convention. */
  predicate IsHiddenName(name: string)
  {
    |name| > 0 && (name[0] == '.' || name[0] == '_')
  }

  /** `Path.Combine(a, b)`, with `'/'` as the directory separator and a path counted as
      rooted when it starts with a separator. */
  function Combine(a: string, b: string): string
  {
    if b == [] then a
    else if a == [] || IsSeparator(b[0]) then b
    else if IsSeparator(a[|a| - 1]) then a + b
    else a + "/" + b
  }

  /** `Path.Combine(a, b)` ends with `b`, and starts with `a` when `b` is relative. */
  lemma CombineKeepsParts(a: string, b: string)
    ensures |b| <= |Combine(a, b)| && Combine(a, b)[|Combine(a, b)| - |b|..] == b
    ensures a != [] && b != [] && !IsSeparator(b[0]) ==> |a| <= |Combine(a, b)| && Combine(a, b)[..|a|] == a
  {
  }

  /** `GetModPackageKey(location)` (ModContext.cs:77-84) with `RootModsFolder == root`: drop
      as many characters as the root has, without checking that they are the root; trim
      separators from both ends if a separator comes next; keep the text up to the first
      separator. The slice and the `[0]` index fail unless the location is longer than the
      root. */
  function ModPackageKey(root: string, location: string): (key: string)
    requires |location| > |root|
    ensures NoSeparator(key)
    ensures |key| <= |location| - |root|
  {
    var localModFile := location[|root|..];
    var trimmed := if IsSeparator(localModFile[0]) then Trim(localModFile) else localModFile;
    FirstSegment(trimmed)
  }

  /** The key of a plugin laid out as `root/key/rest` (with either separator) is `key`, for
      any non-empty separator-free `key`. */
  lemma {:induction false} ModPackageKeyOfLayout(root: string, key: string, sep: char, sep': char, rest: string)
    requires key != [] && NoSeparator(key) && IsSeparator(sep) && IsSeparator(sep')
    ensures ModPackageKey(root, root + [sep] + key + [sep'] + rest) == key
  {
    var location := root + [sep] + key + [sep'] + rest;
    var tail := key + [sep'] + rest;
    assert location[|root|..] == [sep] + tail;
    assert tail[0] == key[0];
    TrimStartAfterSeparator(sep, tail);
    assert key <= tail;
    TrimEndKeepsPrefix(key, tail);
    var trimmed := TrimEnd(tail);
    assert |trimmed| == |key| || trimmed[|key|] == sep';
    FirstSegmentOf(trimmed, key);
  }

  /** The key of a package folder `root/key` is `key`. */
  lemma {:induction false} ModPackageKeyOfFolder(root: string, key: string, sep: char)
    requires key != [] && NoSeparator(key) && IsSeparator(sep)
    ensures ModPackageKey(root, root + [sep] + key) == key
  {
    var location := root + [sep] + key;
    assert location[|root|..] == [sep] + key;
    TrimStartAfterSeparator(sep, key);
    TrimEndKeepsPrefix(key, key);
    FirstSegmentOf(key, key);
  }

  /** The derivation reads only the root's length: a location outside the root whose prefix
      has the same length gives a key all the same. */
  lemma ModPackageKeyIgnoresRootText(root: string, other: string, location: string)
    requires |root| == |other| < |location|
    ensures ModPackageKey(root, location) == ModPackageKey(other, location)
  {
  }
}
