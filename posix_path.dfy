/**
 * The POSIX path-string operations the scripts call: os.path.join,
 * os.path.splitext and the tail of os.path.split.
 */
module PosixPath {

  /** Index of the last occurrence of `c` in `s`, or -1 (str.rfind). */
  function RFind(s: string, c: char): (r: int)
    ensures -1 <= r < |s|
    ensures r >= 0 ==> s[r] == c
    ensures forall j :: r < j < |s| ==> s[j] != c
  {
    if s == [] then -1
    else if s[|s| - 1] == c then |s| - 1
    else RFind(s[..|s| - 1], c)
  }

  /** Cutting `s` after its last `c` does not move the last `c`. */
  lemma {:induction false} RFindPrefix(s: string, c: char, k: nat)
    requires RFind(s, c) < k <= |s|
    ensures RFind(s[..k], c) == RFind(s, c)
  {
    var r := RFind(s, c);
    var t := s[..k];
    assert forall j :: r < j < |t| ==> t[j] != c;
    if r >= 0 {
      assert t[r] == c;
    }
    RFindUnique(t, c, r);
  }

  /** RFind is pinned down by the last position holding `c`. */
  lemma {:induction false} RFindUnique(s: string, c: char, r: int)
    requires -1 <= r < |s|
    requires r >= 0 ==> s[r] == c
    requires forall j :: r < j < |s| ==> s[j] != c
    ensures RFind(s, c) == r
  {
  }

  /** os.path.join(a, b): an absolute b replaces a; otherwise one '/' separates them. */
  function Join(a: string, b: string): (r: string)
    ensures |b| > 0 && b[0] == '/' ==> r == b
    ensures !(|b| > 0 && b[0] == '/') ==> a <= r && |b| <= |r| && r[|r| - |b|..] == b
    ensures !(|b| > 0 && b[0] == '/') && (a == [] || a[|a| - 1] == '/') ==> r == a + b
    ensures !(|b| > 0 && b[0] == '/') && !(a == [] || a[|a| - 1] == '/') ==> r == a + "/" + b
  {
    if |b| > 0 && b[0] == '/' then b
    else if a == [] || a[|a| - 1] == '/' then a + b
    else a + "/" + b
  }

  /** os.path.splitext: the extension is the last '.'-suffix of the final component,
      unless that component consists only of dots before it (".bashrc" has none). */
  function SplitExt(p: string): (r: (string, string))
    ensures r.0 + r.1 == p
    ensures r.1 == [] || (r.1[0] == '.' && forall j :: 0 <= j < |r.1| ==> r.1[j] != '/')
    ensures r.1 != [] ==> forall j :: 0 < j < |r.1| ==> r.1[j] != '.'
    ensures r.1 != [] ==> exists j :: RFind(p, '/') + 1 <= j < |r.0| && p[j] != '.'
    ensures r.1 == [] ==>
      RFind(p, '.') <= RFind(p, '/') || forall j :: RFind(p, '/') + 1 <= j < RFind(p, '.') ==> p[j] == '.'
  {
    var sep := RFind(p, '/');
    var dot := RFind(p, '.');
    if dot > sep && exists j :: sep + 1 <= j < dot && p[j] != '.' then
      assert p[..dot] + p[dot..] == p;
      (p[..dot], p[dot..])
    else
      (p, [])
  }

  /** os.path.split(p)[1]: everything after the last '/'. */
  function Basename(p: string): (r: string)
    ensures forall j :: 0 <= j < |r| ==> r[j] != '/'
    ensures |r| <= |p| && p[|p| - |r|..] == r
    ensures |r| == |p| || p[|p| - |r| - 1] == '/'
  {
    p[RFind(p, '/') + 1..]
  }

  /** Dropping the extension and then taking the final component gives the final
      component minus its extension. */
  lemma {:induction false} BasenameOfRoot(p: string)
    ensures Basename(SplitExt(p).0) + SplitExt(p).1 == Basename(p)
  {
    var (root, ext) := SplitExt(p);
    if ext != [] {
      var sep := RFind(p, '/');
      var dot := RFind(p, '.');
      assert root == p[..dot];
      RFindPrefix(p, '/', dot);
      assert Basename(root) == p[sep + 1..dot];
      assert p[sep + 1..dot] + p[dot..] == p[sep + 1..];
    }
  }
}
