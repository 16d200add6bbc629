/**
 * The two POSIX path operations the loaders use: `os.path.join(a, b)` and
 * `os.path.basename(p)`.
 */
module Paths {

  /** `os.path.join(a, b)`: an absolute b replaces a; otherwise one "/" separates them. */
  function PathJoin(a: string, b: string): string
  {
    if |b| > 0 && b[0] == '/' then b
    else if a == "" || a[|a| - 1] == '/' then a + b
    else a + "/" + b
  }

  /** `os.path.basename(p)`: what follows the last "/" (all of p when there is none). */
  function Basename(p: string): (r: string)
    ensures '/' !in r
    ensures |r| <= |p| && p[|p| - |r|..] == r
    ensures |r| < |p| ==> p[|p| - |r| - 1] == '/'
  {
    AfterLast(p, '/')
  }

  /** What follows the last `sep` in p. */
  function AfterLast<T(==)>(p: seq<T>, sep: T): (r: seq<T>)
    ensures sep !in r
    ensures |r| <= |p| && p[|p| - |r|..] == r
    ensures |r| < |p| ==> p[|p| - |r| - 1] == sep
  {
    if p == [] then []
    else if p[|p| - 1] == sep then []
    else AfterLast(p[..|p| - 1], sep) + [p[|p| - 1]]
  }

  /** A name without "/" behind a directory ending in "/" is its own basename. */
  lemma BasenameAfterSlash(dir: string, name: string)
    requires dir == [] || dir[|dir| - 1] == '/'
    requires '/' !in name
    ensures Basename(dir + name) == name
  {
    forall k | 0 <= k < |name| ensures name[k] != '/' {
      assert name[k] in name;
    }
    AfterLastOf(dir, name, '/');
  }

  lemma {:induction false} AfterLastOf<T>(dir: seq<T>, name: seq<T>, sep: T)
    requires dir == [] || dir[|dir| - 1] == sep
    requires forall k :: 0 <= k < |name| ==> name[k] != sep
    ensures AfterLast(dir + name, sep) == name
  {
    if name != [] {
      var p := dir + name;
      var init := name[..|name| - 1];
      assert p[..|p| - 1] == dir + init;
      AfterLastStep(p, sep);
      AfterLastOf(dir, init, sep);
      assert name == init + [name[|name| - 1]];
    } else {
      assert dir + name == dir;
    }
  }

  lemma AfterLastStep<T>(p: seq<T>, sep: T)
    requires p != [] && p[|p| - 1] != sep
    ensures AfterLast(p, sep) == AfterLast(p[..|p| - 1], sep) + [p[|p| - 1]]
  {
  }

  /** The basename of a directory joined with a plain file name is that file name. */
  lemma BasenameOfJoin(dir: string, name: string)
    requires '/' !in name
    ensures Basename(PathJoin(dir, name)) == name
  {
    if dir == "" || dir[|dir| - 1] == '/' {
      BasenameAfterSlash(dir, name);
    } else {
      assert dir + "/" + name == (dir + "/") + name;
      BasenameAfterSlash(dir + "/", name);
    }
  }
}
