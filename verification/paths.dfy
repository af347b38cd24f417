/** Host file-system paths, kept as their string form.

    A path's last component is the text after its last `/`, and its extension
    is the text after the last `.` of that component; a component without a
    `.` has no extension.  Joining a directory and a name puts one `/`
    between them. */
module Paths {
  import opened Wrappers

  type Path = string

  /** The extension the generator understands; the comparison is case-sensitive. */
  const SwiftExtension: string := "swift"

  /** `t` is a suffix of `s`. */
  predicate EndsWith(s: string, t: string) {
    |t| <= |s| && s[|s| - |t|..] == t
  }

  /** The text after the last occurrence of `c` in `s`, or `None` when `c`
      does not occur in `s`. */
  function AfterLast(s: string, c: char): (r: Option<string>)
    ensures r.None? <==> c !in s
    ensures r.Some? ==>
      && EndsWith(s, r.value)
      && |r.value| < |s|
      && s[|s| - |r.value| - 1] == c
      && c !in r.value
    decreases |s|
  {
    if |s| == 0 then None
    else if s[|s| - 1] == c then Some([])
    else
      var init := s[..|s| - 1];
      assert s == init + [s[|s| - 1]];
      match AfterLast(init, c)
      case None => None
      case Some(t) => Some(t + [s[|s| - 1]])
  }

  /** The contract of `AfterLast` pins its result down: any suffix that sits
      right after a `c` and holds no `c` is the one it returns. */
  lemma AfterLastUnique(s: string, c: char, t: string)
    requires EndsWith(s, t) && |t| < |s| && s[|s| - |t| - 1] == c && c !in t
    ensures AfterLast(s, c) == Some(t)
  {
    var r := AfterLast(s, c);
    assert s[|s| - |t| - 1] in s;
    var u := r.value;
    assert |u| == |t|;
  }

  /** The last component of a path. */
  function LastComponent(p: Path): (r: string)
    ensures EndsWith(p, r) && '/' !in r
    ensures '/' in p ==> |r| < |p| && p[|p| - |r| - 1] == '/'
    ensures '/' !in p ==> r == p
  {
    match AfterLast(p, '/')
    case None => p
    case Some(t) => t
  }

  /** The extension of a path: the text after the last `.` of its last
      component, or `None` when that component has no `.`. */
  function Extension(p: Path): (r: Option<string>)
    ensures r.None? <==> '.' !in LastComponent(p)
    ensures r.Some? ==>
      && EndsWith(p, r.value)
      && |r.value| < |p|
      && p[|p| - |r.value| - 1] == '.'
      && '.' !in r.value
      && '/' !in r.value
  {
    var c := LastComponent(p);
    match AfterLast(c, '.')
    case None => None
    case Some(t) =>
      SuffixOfSuffix(p, c, t);
      Some(t)
  }

  /** What follows the last `.` of a path's last component sits right after
      a `.` at the end of the path and holds neither `.` nor `/`. */
  lemma SuffixOfSuffix(p: string, c: string, t: string)
    requires EndsWith(p, c) && '/' !in c
    requires EndsWith(c, t) && |t| < |c| && c[|c| - |t| - 1] == '.' && '.' !in t
    ensures EndsWith(p, t) && |t| < |p| && p[|p| - |t| - 1] == '.'
    ensures '.' !in t && '/' !in t
  {
    assert p[|p| - |t|..] == c[|c| - |t|..];
    assert p[|p| - |t| - 1] == c[|c| - |t| - 1];
  }

  /** The file-list filter's test: the path's extension is exactly `swift`,
      which holds exactly when the path ends with `.swift`. */
  predicate IsSwiftFile(p: Path)
    ensures IsSwiftFile(p) <==> EndsWith(p, "." + SwiftExtension)
  {
    SwiftExtensionIffSuffix(p);
    Extension(p) == Some(SwiftExtension)
  }

  /** An extension sits right after a `.`, so the path ends with both. */
  lemma DotBeforeExtension(p: Path, e: string)
    requires EndsWith(p, e) && |e| < |p| && p[|p| - |e| - 1] == '.'
    ensures EndsWith(p, "." + e)
  {
    assert p[|p| - |e| - 1..] == [p[|p| - |e| - 1]] + p[|p| - |e|..];
  }

  /** A path ends with a `.` followed by its extension. */
  lemma ExtensionHasSuffix(p: Path, e: string)
    requires Extension(p) == Some(e)
    ensures EndsWith(p, "." + e)
  {
    DotBeforeExtension(p, e);
  }


  /** A suffix without `/` is also a suffix of the last component. */
  lemma LastComponentKeepsSuffix(p: Path, s: string)
    requires EndsWith(p, s) && '/' !in s
    ensures EndsWith(LastComponent(p), s)
  {
    var c := LastComponent(p);
    assert |c| >= |s|;
    assert c[|c| - |s|..] == p[|p| - |s|..];
  }

  /** A name ending in `.` and a dot-free `e` has extension `e`. */
  lemma DotSuffixIsExtension(c: string, e: string)
    requires EndsWith(c, "." + e) && '.' !in e
    ensures AfterLast(c, '.') == Some(e)
  {
    assert c[|c| - |e|..] == ("." + e)[1..];
    assert c[|c| - |e| - 1] == ("." + e)[0];
    AfterLastUnique(c, '.', e);
  }

  /** A path ending with `.swift` has extension `swift`, whatever comes before. */
  lemma SuffixMakesSwiftExtension(p: Path)
    requires EndsWith(p, "." + SwiftExtension)
    ensures Extension(p) == Some(SwiftExtension)
  {
    LastComponentKeepsSuffix(p, "." + SwiftExtension);
    DotSuffixIsExtension(LastComponent(p), SwiftExtension);
  }

  /** A path has extension `swift` exactly when it ends with `.swift`. */
  lemma SwiftExtensionIffSuffix(p: Path)
    ensures Extension(p) == Some(SwiftExtension) <==> EndsWith(p, "." + SwiftExtension)
  {
    if Extension(p) == Some(SwiftExtension) {
      ExtensionHasSuffix(p, SwiftExtension);
    }
    if EndsWith(p, "." + SwiftExtension) {
      SuffixMakesSwiftExtension(p);
    }
  }

  /** The path of `name` inside directory `dir`: the directory, one `/`,
      then the name. */
  function Appending(dir: Path, name: string): Path {
    dir + "/" + name
  }

  /** A name without `/` is the last component of the path it is appended to,
      so it keeps its extension. */
  lemma AppendingKeepsName(dir: Path, name: string)
    requires '/' !in name
    ensures LastComponent(Appending(dir, name)) == name
    ensures Extension(Appending(dir, name)) == Extension(name)
  {
    var p := Appending(dir, name);
    assert p[|p| - |name|..] == name;
    assert p[|p| - |name| - 1] == '/';
    AfterLastUnique(p, '/', name);
  }

  /** The extension test is case-sensitive: a path ending in any other
      six characters than `.swift` (`.Swift`, `.SWIFT`, ...) is not a Swift file. */
  lemma CaseSensitive(p: Path, suffix: string)
    requires |suffix| == 6 && suffix != "." + SwiftExtension && EndsWith(p, suffix)
    ensures !IsSwiftFile(p)
  {
  }

  /** Appending a name without `/` yields a Swift file exactly when the name
      is one. */
  lemma AppendingKeepsSwift(dir: Path, name: string)
    requires '/' !in name
    ensures IsSwiftFile(Appending(dir, name)) <==> IsSwiftFile(name)
  {
    AppendingKeepsName(dir, name);
  }
}
