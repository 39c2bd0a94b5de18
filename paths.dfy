/**
 * File URLs and names, reduced to what the screens use: a URL is its path
 * string, `lastPathComponent` is the text after the last '/', and
 * `pathExtension` / `deletingPathExtension()` split a file name at its last '.'.
 */
module Paths {
  import opened Options

  /** The position of the last occurrence of c in s, if any. */
  function LastIndexOf(s: string, c: char): (r: Option<nat>)
    ensures r.None? <==> c !in s
    ensures r.Some? ==> r.value < |s| && s[r.value] == c && c !in s[r.value + 1..]
  {
    if s == [] then None
    else if s[|s| - 1] == c then Some(|s| - 1)
    else
      var r := LastIndexOf(s[..|s| - 1], c);
      assert s == s[..|s| - 1] + [s[|s| - 1]];
      if r.Some? then
        assert s[r.value + 1..] == s[..|s| - 1][r.value + 1..] + [s[|s| - 1]];
        r
      else
        r
  }

  /** `URL.lastPathComponent`: the text after the last '/' (all of it when there is none). */
  function LastPathComponent(path: string): (name: string)
    ensures '/' !in name
    ensures |name| <= |path| && path[|path| - |name|..] == name
    ensures |name| < |path| ==> path[|path| - |name| - 1] == '/'
  {
    match LastIndexOf(path, '/')
    case None => path
    case Some(i) => path[i + 1..]
  }

  /** A file appended to a folder path is found again as the last component. */
  lemma LastPathComponentOfChild(folder: string, name: string)
    requires '/' !in name
    ensures LastPathComponent(folder + "/" + name) == name
  {
    var path := folder + "/" + name;
    assert path[|folder|] == '/';
    assert path[|folder| + 1..] == name;
  }

  /** A file name split at its last '.': `deletingPathExtension()` gives base, `pathExtension` gives ext. */
  datatype NameParts = NameParts(base: string, ext: string)

  function SplitExtension(name: string): (p: NameParts)
    ensures '.' !in p.ext
    ensures '.' in name ==> name == p.base + "." + p.ext
    ensures '.' !in name ==> p.base == name && p.ext == ""
  {
    match LastIndexOf(name, '.')
    case None => NameParts(name, "")
    case Some(i) =>
      assert name == name[..i] + "." + name[i + 1..];
      NameParts(name[..i], name[i + 1..])
  }

  function PathExtension(name: string): string {
    SplitExtension(name).ext
  }

  /** Splitting undoes joining: a base, a '.' and a dot-free extension split back into themselves. */
  lemma SplitJoinedName(base: string, ext: string)
    requires '.' !in ext
    ensures SplitExtension(base + "." + ext) == NameParts(base, ext)
  {
    var name := base + "." + ext;
    assert name[|base|] == '.';
    assert name[..|base|] == base;
    assert name[|base| + 1..] == ext;
  }
}
