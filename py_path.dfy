/** The two `os.path` operations the source applies to paths: `join` and `basename` (POSIX flavour). */
module PyPath {

  /** `os.path.join(a, b)`: an absolute `b` replaces `a`; otherwise a '/' is inserted unless `a` is empty or ends in one. */
  function Join(a: string, b: string): (r: string)
    ensures |b| <= |r| && r[|r| - |b|..] == b
    ensures b != [] && b[0] == '/' ==> r == b
    ensures (b == [] || b[0] != '/') ==> a <= r
  {
    if |b| > 0 && b[0] == '/' then b
    else if a == [] || a[|a| - 1] == '/' then a + b
    else a + "/" + b
  }

  /** `os.path.basename(p)`: what follows the last '/' of `p` (all of `p` when it has none). */
  function Basename(p: string): string {
    if p == [] then []
    else if p[|p| - 1] == '/' then []
    else Basename(p[..|p| - 1]) + [p[|p| - 1]]
  }

  /** The base name is the longest slash-free suffix of the path. */
  lemma {:induction false} BasenameIsLastComponent(p: string)
    ensures '/' !in Basename(p)
    ensures |Basename(p)| <= |p| && p[|p| - |Basename(p)|..] == Basename(p)
    ensures |Basename(p)| < |p| ==> p[|p| - |Basename(p)| - 1] == '/'
  {
    if p != [] && p[|p| - 1] != '/' {
      var init := p[..|p| - 1];
      var last := p[|p| - 1];
      BasenameIsLastComponent(init);
      var b := Basename(init);
      assert Basename(p) == b + [last];
      assert p == init + [last];
      assert p[|p| - |Basename(p)|..] == init[|init| - |b|..] + [last];
    }
  }

  /** The base name of a slash-free name placed after a directory prefix is that name. */
  lemma {:induction false} BasenameAfterSlash(prefix: string, name: string)
    requires '/' !in name
    requires prefix == [] || prefix[|prefix| - 1] == '/'
    ensures Basename(prefix + name) == name
  {
    var p := prefix + name;
    if name == [] {
      assert p == prefix;
    } else {
      assert p[..|p| - 1] == prefix + name[..|name| - 1];
      assert p[|p| - 1] == name[|name| - 1];
      BasenameAfterSlash(prefix, name[..|name| - 1]);
      assert name[..|name| - 1] + [name[|name| - 1]] == name;
    }
  }

  /** `basename(join(d, name)) == name` for every directory `d` and every name without '/'. */
  lemma BasenameOfJoin(dir: string, name: string)
    requires '/' !in name
    ensures Basename(Join(dir, name)) == name
  {
    if dir == [] || dir[|dir| - 1] == '/' {
      BasenameAfterSlash(dir, name);
    } else {
      assert dir + "/" + name == (dir + "/") + name;
      BasenameAfterSlash(dir + "/", name);
    }
  }
}
