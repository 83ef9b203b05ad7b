/** The `os.path` string operations the assets and the thumbnail cache rely on
    (POSIX flavour: '/' is the only separator). */
module Paths {

  /** `s.rfind(c)`: the index of the last `c` in `s`, or -1 when there is none. */
  function RFind(s: string, c: char): (i: int)
    ensures -1 <= i < |s|
    ensures i >= 0 ==> s[i] == c
    ensures forall k :: i < k < |s| ==> s[k] != c
  {
    if s == [] then -1
    else if s[|s| - 1] == c then |s| - 1
    else RFind(s[..|s| - 1], c)
  }

  /** The text after the last `c`; all of `s` when `c` does not occur. */
  function AfterLast(s: string, c: char): (r: string)
    ensures c !in r
    ensures |r| <= |s| && r == s[|s| - |r|..]
    ensures |r| < |s| ==> s[|s| - |r| - 1] == c
    ensures c !in s ==> r == s
  {
    s[RFind(s, c) + 1..]
  }

  /** `AfterLast` is the only suffix free of `c` that starts the string or follows a `c`. */
  lemma AfterLastUnique(s: string, c: char, y: string)
    requires |y| <= |s| && s[|s| - |y|..] == y && c !in y
    requires |y| == |s| || s[|s| - |y| - 1] == c
    ensures AfterLast(s, c) == y
  {
    assert forall k :: |s| - |y| <= k < |s| ==> s[k] == y[k - (|s| - |y|)];
  }

  /** `os.path.basename(p)`: the text after the last '/'. */
  function Basename(p: string): (r: string)
    ensures '/' !in r
    ensures |r| <= |p| && r == p[|p| - |r|..]
    ensures |r| < |p| ==> p[|p| - |r| - 1] == '/'
  {
    AfterLast(p, '/')
  }

  /** `os.path.join(a, b)`: an absolute `b` replaces `a`; otherwise one '/' is inserted
      unless `a` is empty or already ends with one. */
  function Join(a: string, b: string): (r: string)
    ensures |b| > 0 && b[0] == '/' ==> r == b
    ensures !(|b| > 0 && b[0] == '/') ==> |a| <= |r| && r[..|a|] == a
  {
    if |b| > 0 && b[0] == '/' then b
    else if a == [] || a[|a| - 1] == '/' then a + b
    else a + "/" + b
  }

  /** A non-empty `b` ends the joined path. */
  lemma JoinEndsWith(a: string, b: string)
    requires b != []
    ensures |b| <= |Join(a, b)| && Join(a, b)[|Join(a, b)| - |b|..] == b
    ensures Join(a, b)[|Join(a, b)| - 1] == b[|b| - 1]
  {
    var j := Join(a, b);
    if !(b[0] == '/') && !(a == [] || a[|a| - 1] == '/') {
      assert j == (a + "/") + b;
    }
  }

  /** The directory part of a path as this model's filesystem sees it: the text before the
      last '/', or "" (the current or root directory) when there is none. */
  function Parent(p: string): (r: string)
    ensures |r| <= |p| && r == p[..|r|]
    ensures '/' in p ==> |r| < |p| && p[|r|] == '/' && '/' !in p[|r| + 1..]
    ensures '/' !in p ==> r == ""
  {
    var i := RFind(p, '/');
    if i < 0 then "" else p[..i]
  }

  /** Joining a name that holds no '/' onto any folder and taking the basename gives the name back. */
  lemma {:induction false} BasenameJoin(folder: string, name: string)
    requires '/' !in name
    ensures Basename(Join(folder, name)) == name
  {
    var j := Join(folder, name);
    if folder == [] || folder[|folder| - 1] == '/' {
      assert j == folder + name;
      assert j[|j| - |name|..] == name;
    } else {
      assert j == folder + "/" + name;
      assert j[|j| - |name|..] == name;
      assert j[|j| - |name| - 1] == '/';
    }
    AfterLastUnique(j, '/', name);
  }

  /** The parent of `Join(folder, name)` is `folder` whenever `folder` is non-empty and
      does not end with '/', and `name` holds no '/'. */
  lemma {:induction false} ParentJoin(folder: string, name: string)
    requires folder != [] && folder[|folder| - 1] != '/' && '/' !in name
    ensures Parent(Join(folder, name)) == folder
  {
    var j := Join(folder, name);
    assert j == folder + "/" + name;
    assert j[|folder|] == '/';
    assert forall k :: |folder| < k < |j| ==> j[k] == name[k - |folder| - 1];
    assert RFind(j, '/') == |folder|;
  }
}
