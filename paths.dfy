/**
 * The two POSIX path operations the workflow uses, `os.path.join` and
 * `os.path.dirname`, written out as Python's posixpath module defines them.
 */
module Paths {

  predicate EndsWithSlash(s: string) {
    |s| > 0 && s[|s| - 1] == '/'
  }

  predicate StartsWithSlash(s: string) {
    |s| > 0 && s[0] == '/'
  }

  /** A directory name that `join` extends with exactly one separator. */
  predicate IsPlainDir(s: string) {
    s != "" && !EndsWithSlash(s)
  }

  /** A single path component: non-empty and without separators. */
  predicate IsComponent(s: string) {
    s != "" && '/' !in s
  }

  /**
   * `os.path.join(a, b)`: an absolute `b` replaces `a`; otherwise `b` is
   * appended, with a separator unless `a` is empty or already ends with one.
   */
  function Join(a: string, b: string): (r: string)
    ensures StartsWithSlash(b) ==> r == b
    ensures IsPlainDir(a) && !StartsWithSlash(b) ==> r == a + "/" + b
  {
    if StartsWithSlash(b) then b
    else if a == "" || EndsWithSlash(a) then a + b
    else a + "/" + b
  }

  /** `p.rfind('/') + 1`: the length of the part up to and including the last separator. */
  function AfterLastSlash(p: string): (i: nat)
    ensures i <= |p|
  {
    if p == [] then 0
    else if p[|p| - 1] == '/' then |p|
    else AfterLastSlash(p[..|p| - 1])
  }

  /** The last separator is at `AfterLastSlash(p) - 1`, and none comes after it. */
  lemma {:induction false} AfterLastSlashIsLast(p: string)
    ensures AfterLastSlash(p) > 0 ==> p[AfterLastSlash(p) - 1] == '/'
    ensures forall k :: AfterLastSlash(p) <= k < |p| ==> p[k] != '/'
  {
    if p != [] && p[|p| - 1] != '/' {
      AfterLastSlashIsLast(p[..|p| - 1]);
    }
  }

  predicate AllSlashes(s: string) {
    s == [] || (s[|s| - 1] == '/' && AllSlashes(s[..|s| - 1]))
  }

  /** `s.rstrip('/')` */
  function StripTrailingSlashes(s: string): (r: string)
    ensures |r| <= |s| && !EndsWithSlash(r)
  {
    if EndsWithSlash(s) then StripTrailingSlashes(s[..|s| - 1]) else s
  }

  /** `rstrip` removes only separators, and all the trailing ones. */
  lemma {:induction false} StripTrailingSlashesSpec(s: string)
    ensures StripTrailingSlashes(s) <= s && !EndsWithSlash(StripTrailingSlashes(s))
    ensures forall k :: |StripTrailingSlashes(s)| <= k < |s| ==> s[k] == '/'
  {
    if EndsWithSlash(s) {
      StripTrailingSlashesSpec(s[..|s| - 1]);
    }
  }

  /**
   * `os.path.dirname(p)`: everything before the last separator, with the
   * separators that end it removed, unless that part consists of
   * separators only (the root stays as it is).
   */
  function Dirname(p: string): (r: string)
    ensures |r| <= AfterLastSlash(p)
    ensures AfterLastSlash(p) == 0 ==> r == ""
  {
    var head := p[..AfterLastSlash(p)];
    if head != "" && !AllSlashes(head) then StripTrailingSlashes(head) else head
  }

  /** The dirname is a prefix of the path, and a path without separators has an empty one. */
  lemma {:induction false} DirnamePrefix(p: string)
    ensures Dirname(p) <= p
    ensures '/' !in p ==> Dirname(p) == ""
  {
    var head := p[..AfterLastSlash(p)];
    StripTrailingSlashesSpec(head);
    AfterLastSlashIsLast(p);
  }

  /** `dirname` undoes `join` when the directory is plain and the name is a single component. */
  lemma {:induction false} DirnameOfJoin(dir: string, name: string)
    requires IsPlainDir(dir)
    requires '/' !in name
    ensures !StartsWithSlash(name)
    ensures Dirname(Join(dir, name)) == dir
  {
    var p := dir + "/" + name;
    assert Join(dir, name) == p;
    assert p[|dir|] == '/';
    assert p[|dir| + 1..] == name;
    var i := AfterLastSlash(p);
    AfterLastSlashIsLast(p);
    assert forall k :: |dir| < k < |p| ==> p[k] == name[k - |dir| - 1];
    assert i == |dir| + 1;
    var head := p[..i];
    assert head == dir + "/";
    assert !AllSlashes(head) by {
      // a plain directory does not end with a separator, so it is not all separators
      assert head[..|head| - 1] == dir && !AllSlashes(dir);
    }
    assert Dirname(p) == StripTrailingSlashes(head);
    assert EndsWithSlash(head) && head[..|head| - 1] == dir;
    assert StripTrailingSlashes(head) == StripTrailingSlashes(dir) == dir;
  }
}
