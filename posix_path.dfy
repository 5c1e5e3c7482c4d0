/** The `os.path` functions the pipeline calls, as Python's `posixpath` defines them. */
module PosixPath {

  predicate NoSlash(s: string) {
    forall i :: 0 <= i < |s| ==> s[i] != '/'
  }

  /** `p.rfind('/') + 1`: where the last path component starts. */
  function SplitPoint(p: string): (k: nat)
    ensures k <= |p|
    ensures NoSlash(p[k..])
    ensures k == 0 || p[k - 1] == '/'
  {
    if p == [] then 0
    else if p[|p| - 1] == '/' then |p|
    else SplitPoint(p[..|p| - 1])
  }

  /** `os.path.basename(p)`: the text after the last '/'. */
  function Basename(p: string): (r: string)
    ensures NoSlash(r)
    ensures |r| <= |p| && p[|p| - |r|..] == r
    ensures |r| == |p| || p[|p| - |r| - 1] == '/'
  {
    p[SplitPoint(p)..]
  }

  /** `head.rstrip('/')`. */
  function StripTrailingSlashes(s: string): (r: string)
    ensures |r| <= |s| && s[..|r|] == r
    ensures r == [] || r[|r| - 1] != '/'
    ensures forall i :: |r| <= i < |s| ==> s[i] == '/'
  {
    if s != [] && s[|s| - 1] == '/' then StripTrailingSlashes(s[..|s| - 1]) else s
  }

  predicate AllSlashes(s: string) {
    forall i :: 0 <= i < |s| ==> s[i] == '/'
  }

  /** `os.path.dirname(p)`: everything up to the last '/', with trailing slashes removed
      unless the head consists of slashes alone. */
  function Dirname(p: string): string {
    var head := p[..SplitPoint(p)];
    if head != [] && !AllSlashes(head) then StripTrailingSlashes(head) else head
  }

  /** `os.path.join(a, b)` for two components. */
  function Join(a: string, b: string): string {
    if b != [] && b[0] == '/' then b
    else if a == [] || a[|a| - 1] == '/' then a + b
    else a + "/" + b
  }

  /** After a prefix that is empty or ends in '/', a slash-free tail is the last component. */
  lemma {:induction false} SplitPointAfter(pre: string, name: string)
    requires pre == [] || pre[|pre| - 1] == '/'
    requires NoSlash(name)
    ensures SplitPoint(pre + name) == |pre|
  {
    if name == [] {
      assert pre + name == pre;
    } else {
      var init := name[..|name| - 1];
      assert (pre + name)[..|pre + name| - 1] == pre + init;
      assert (pre + name)[|pre + name| - 1] == name[|name| - 1];
      SplitPointAfter(pre, init);
    }
  }

  /** Joining a directory with a plain file name puts that name last: the basename of the
      joined path is the name itself. */
  lemma BasenameOfJoin(a: string, name: string)
    requires name != [] && NoSlash(name)
    ensures Basename(Join(a, name)) == name
  {
    var pre := if a == [] || a[|a| - 1] == '/' then a else a + "/";
    assert name[0] != '/';
    assert Join(a, name) == pre + name;
    SplitPointAfter(pre, name);
    assert (pre + name)[|pre|..] == name;
  }

  /** The directory part of a joined path `a/name` is `a` itself, when `a` is a non-empty
      directory name without a trailing slash. */
  lemma DirnameOfJoin(a: string, name: string)
    requires name != [] && NoSlash(name)
    requires a != [] && a[|a| - 1] != '/'
    ensures Dirname(Join(a, name)) == a
  {
    var j := Join(a, name);
    assert j == a + "/" + name;
    BasenameOfJoin(a, name);
    var k := SplitPoint(j);
    assert j[..k] == a + "/";
    assert !AllSlashes(j[..k]) by { assert j[..k][|a| - 1] == a[|a| - 1]; }
    var t := StripTrailingSlashes(j[..k]);
    assert t == a by {
      assert StripTrailingSlashes(a + "/") == StripTrailingSlashes(a);
    }
  }
}
