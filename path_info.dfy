/** PHP's `pathinfo($path, PATHINFO_EXTENSION)` on '/'-separated paths in an
    ASCII-compatible locale: trailing slashes are dropped, the last path
    component is the basename, and the extension is what follows the
    basename's last '.' (the empty string when it has none). */
module PathInfo {

  /** s without its trailing run of c. */
  function TrimTrailing(s: string, c: char): (r: string)
    ensures r <= s
    ensures r == [] || r[|r| - 1] != c
    ensures forall i | |r| <= i < |s| :: s[i] == c
    decreases |s|
  {
    if s != [] && s[|s| - 1] == c then TrimTrailing(s[..|s| - 1], c) else s
  }

  /** The index of the last c in s, or -1 when c does not occur. */
  function LastIndexOf(s: string, c: char): (k: int)
    ensures -1 <= k < |s|
    ensures k >= 0 ==> s[k] == c
    ensures forall i | k < i < |s| :: s[i] != c
    decreases |s|
  {
    if s == [] then -1
    else if s[|s| - 1] == c then |s| - 1
    else LastIndexOf(s[..|s| - 1], c)
  }

  /** `basename($path)`: the last non-empty '/'-separated component, that
      is, the longest '/'-free tail of the path once its trailing slashes
      are dropped. */
  function Basename(path: string): (b: string)
    ensures forall i | 0 <= i < |b| :: b[i] != '/'
    ensures b == [] <==> forall i | 0 <= i < |path| :: path[i] == '/'
  {
    var t := TrimTrailing(path, '/');
    var k := LastIndexOf(t, '/');
    assert t != [] ==> k < |t| - 1 && path[|t| - 1] == t[|t| - 1];
    t[k + 1..]
  }

  /** `pathinfo($path, PATHINFO_EXTENSION)`: what follows the basename's
      last '.', or nothing when it has none. */
  function Extension(path: string): (e: string)
    ensures forall i | 0 <= i < |e| :: e[i] != '.' && e[i] != '/'
    ensures LastIndexOf(Basename(path), '.') < 0 ==> e == []
    ensures LastIndexOf(Basename(path), '.') >= 0 ==> IsDotSuffix(Basename(path), e)
  {
    var b := Basename(path);
    var k := LastIndexOf(b, '.');
    if k < 0 then [] else b[k + 1..]
  }

  /** name ends with '.' followed by e. */
  predicate IsDotSuffix(name: string, e: string) {
    |e| < |name| && name[|name| - |e| - 1] == '.' && name[|name| - |e|..] == e
  }

  /** TrimTrailing is pinned down by its contract: the longest prefix that
      does not end in c and is followed only by c. */
  lemma TrimTrailingIs(s: string, c: char, n: nat)
    requires n <= |s| && (n == 0 || s[n - 1] != c)
    requires forall i | n <= i < |s| :: s[i] == c
    ensures TrimTrailing(s, c) == s[..n]
  {
  }

  /** LastIndexOf is pinned down by its contract. */
  lemma LastIndexOfIs(s: string, c: char, k: int)
    requires -1 <= k < |s| && (k >= 0 ==> s[k] == c)
    requires forall i | k < i < |s| :: s[i] != c
    ensures LastIndexOf(s, c) == k
  {
  }

  /** The basename of "dir/name" is name, whatever dir holds. */
  lemma {:induction false} BasenameOfJoin(dir: string, name: string)
    requires name != [] && forall i | 0 <= i < |name| :: name[i] != '/'
    ensures Basename(dir + "/" + name) == name
  {
    var p := dir + "/" + name;
    assert p[|p| - 1] == name[|name| - 1];
    TrimTrailingIs(p, '/', |p|);
    assert p[..|p|] == p;
    forall i | |dir| < i < |p| ensures p[i] != '/' {
      assert p[i] == name[i - |dir| - 1];
    }
    LastIndexOfIs(p, '/', |dir|);
    assert p[|dir| + 1..] == name;
  }

  /** The basename is the path's last component: a '/'-free tail of the
      path without its trailing slashes that starts at the path's start or
      right after a '/'. */
  lemma {:induction false} BasenameIsLastComponent(path: string)
    ensures var t, b := TrimTrailing(path, '/'), Basename(path);
      && |b| <= |t| && b == t[|t| - |b|..]
      && (|b| == |t| || t[|t| - |b| - 1] == '/')
  {
    var t := TrimTrailing(path, '/');
    var k := LastIndexOf(t, '/');
    assert Basename(path) == t[k + 1..];
  }

  /** A path without '/' is its own basename: "photo.jpg" stays itself. */
  lemma BasenameOfName(name: string)
    requires name != [] && forall i | 0 <= i < |name| :: name[i] != '/'
    ensures Basename(name) == name
  {
    TrimTrailingIs(name, '/', |name|);
    assert name[..|name|] == name;
    LastIndexOfIs(name, '/', -1);
  }

  /** The extension of "dir/stem.ext" is ext: dots in dir or in stem never
      count, only the basename's last one does. */
  lemma {:induction false} ExtensionOfJoin(dir: string, stem: string, ext: string)
    requires forall i | 0 <= i < |stem| :: stem[i] != '/'
    requires forall i | 0 <= i < |ext| :: ext[i] != '/' && ext[i] != '.'
    ensures Extension(dir + "/" + (stem + "." + ext)) == ext
  {
    var name := stem + "." + ext;
    forall i | 0 <= i < |name| ensures name[i] != '/' {
      if i < |stem| { assert name[i] == stem[i]; }
      else if i > |stem| { assert name[i] == ext[i - |stem| - 1]; }
    }
    BasenameOfJoin(dir, name);
    forall i | |stem| < i < |name| ensures name[i] != '.' {
      assert name[i] == ext[i - |stem| - 1];
    }
    LastIndexOfIs(name, '.', |stem|);
    assert name[|stem| + 1..] == ext;
  }

  /** Trailing slashes are dropped before the basename is taken. */
  lemma {:induction false} TrailingSlashIgnored(path: string)
    ensures Basename(path + "/") == Basename(path)
    ensures Extension(path + "/") == Extension(path)
  {
    assert (path + "/")[..|path|] == path;
  }
}
