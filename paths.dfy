/**
 * Filesystem paths as strings with `/` as separator, and the three parts of
 * `pathlib.Path` the signing code uses: `parent / child`, `.name`, `.parent`
 * and `.stem`.
 */
module Paths {

  type Path = string

  /** Index of the last `c` in `s`, or -1 when there is none (Python's `rfind`). */
  function LastIndexOf(s: string, c: char): (i: int)
    ensures -1 <= i < |s|
  {
    if |s| == 0 then -1
    else if s[|s| - 1] == c then |s| - 1
    else LastIndexOf(s[..|s| - 1], c)
  }

  /** `LastIndexOf` finds a `c`, and no `c` comes after it. */
  lemma {:induction false} LastIndexOfSpec(s: string, c: char)
    ensures LastIndexOf(s, c) >= 0 ==> s[LastIndexOf(s, c)] == c
    ensures forall j :: LastIndexOf(s, c) < j < |s| ==> s[j] != c
  {
    if |s| > 0 && s[|s| - 1] != c {
      LastIndexOfSpec(s[..|s| - 1], c);
    }
  }

  /** `dir / child`. */
  function Join(dir: Path, child: string): Path
  {
    dir + "/" + child
  }

  /** `path.name`: the last component. */
  function Name(p: Path): string
  {
    p[LastIndexOf(p, '/') + 1..]
  }

  /** What follows an index with no later separator holds no separator. */
  lemma NameAfter(p: Path, i: int)
    requires -1 <= i < |p|
    requires forall j :: i < j < |p| ==> p[j] != '/'
    ensures '/' !in p[i + 1..]
  {
    var r := p[i + 1..];
    forall k | 0 <= k < |r|
      ensures r[k] != '/'
    {
      assert r[k] == p[i + 1 + k];
    }
  }

  /** A name holds no separator. */
  lemma NameHasNoSeparator(p: Path)
    ensures '/' !in Name(p)
  {
    LastIndexOfSpec(p, '/');
    NameAfter(p, LastIndexOf(p, '/'));
  }

  /** `path.parent`: everything before the last separator ("." when there is none). */
  function Parent(p: Path): Path
  {
    var i := LastIndexOf(p, '/');
    if i < 0 then "." else p[..i]
  }

  /** `Join` is undone by `Name` and `Parent` for a child that is a single component. */
  lemma JoinParts(dir: Path, child: string)
    requires '/' !in child
    ensures Name(Join(dir, child)) == child
    ensures Parent(Join(dir, child)) == dir
  {
    var p := Join(dir, child);
    assert p[|dir|] == '/';
    assert forall j :: |dir| < j < |p| ==> p[j] == child[j - |dir| - 1];
    LastIndexAt(p, '/', |dir|);
    assert p[|dir| + 1..] == child;
    assert p[..|dir|] == dir;
  }

  /** `LastIndexOf` is the only index at which `c` stands with no later `c`. */
  lemma {:induction false} LastIndexAt(s: string, c: char, i: int)
    requires 0 <= i < |s| && s[i] == c
    requires forall j :: i < j < |s| ==> s[j] != c
    ensures LastIndexOf(s, c) == i
  {
    if i < |s| - 1 {
      LastIndexAt(s[..|s| - 1], c, i);
    }
  }

  /** `name.stem`: the name without its final suffix; a leading or trailing dot is no suffix. */
  function Stem(name: string): string
  {
    var i := LastIndexOf(name, '.');
    if 0 < i < |name| - 1 then name[..i] else name
  }

  /**
   * The stem is a prefix of the name; when it is shorter, what it drops starts
   * at the last dot, which is neither the first nor the last character.
   */
  lemma StemIsPrefix(name: string)
    ensures var r := Stem(name);
      && |r| <= |name| && name[..|r|] == r
      && (r != name ==> name[|r|] == '.' && 0 < |r| < |name| - 1)
      && (r != name ==> forall j :: |r| < j < |name| ==> name[j] != '.')
  {
    LastIndexOfSpec(name, '.');
  }

  /** `name.suffix`: what `Stem` takes off. */
  function Suffix(name: string): string
  {
    var i := LastIndexOf(name, '.');
    if 0 < i < |name| - 1 then name[i..] else ""
  }

  /** Stem and suffix split the name in two. */
  lemma StemSuffix(name: string)
    ensures Stem(name) + Suffix(name) == name
    ensures '.' !in name ==> Stem(name) == name && Suffix(name) == ""
  {
    var i := LastIndexOf(name, '.');
    LastIndexOfSpec(name, '.');
    if 0 < i < |name| - 1 {
      assert name[..i] + name[i..] == name;
    }
  }
}
