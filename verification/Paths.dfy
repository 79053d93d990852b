/** Where a process runs, relative to the watched base paths. Paths are absolute
    and clean: lists of components, written with a slash before each. */
module Paths {
  import opened Basics
  import opened Text

  type Path = seq<string>

  ghost predicate Clean(p: Path) {
    forall c :: c in p ==> c != "" && c != "." && c != ".." && '/' !in c
  }

  function Joined(p: Path): string {
    if p == [] then "" else "/" + p[0] + Joined(p[1..])
  }

  function Written(p: Path): string { if p == [] then "/" else Joined(p) }

  predicate HasPrefix(s: string, t: string) {
    |t| <= |s| && s[..|t|] == t
  }

  datatype PathInfo = PathInfo(needsCustomMapping: bool, topLevelFolder: string, relativePath: Path)

  const NOTHING := PathInfo(false, "", [])

  predicate IgnoredDir(c: string) { c == "apps" || c == "packages" }

  function CommonLength(p: Path, q: Path): (n: nat)
    ensures n <= |p| && n <= |q| && p[..n] == q[..n]
    ensures n < |p| && n < |q| ==> p[n] != q[n]
  {
    if p == [] || q == [] || p[0] != q[0] then 0
    else
      var n := CommonLength(p[1..], q[1..]) + 1;
      assert p[..n] == [p[0]] + p[1..][..n - 1] && q[..n] == [q[0]] + q[1..][..n - 1];
      n
  }

  function Ups(n: nat): Path { seq(n, _ => "..") }

  /** The components of `filepath.Rel(base, cwd)`. */
  function Relative(base: Path, cwd: Path): Path {
    var n := CommonLength(base, cwd);
    if n == |base| == |cwd| then ["."] else Ups(|base| - n) + cwd[n..]
  }

  /** `resolvePathInfo`. */
  function ResolvePathInfo(base: Path, cwd: Path): PathInfo {
    var parts := Relative(base, cwd);
    if parts == [] || parts[0] == "" || parts[0] == "." then NOTHING
    else
      var kept := Filter(parts, (c: string) => c != "" && c != "." && !IgnoredDir(c));
      if kept == [] then NOTHING else PathInfo(|kept| > 1, kept[0], kept)
  }

  /** `findMatchingBasePath`: the first base path that the directory's text
      starts with. */
  function FindBase(basePaths: seq<Path>, cwd: Path): (r: Option<Path>)
    ensures r.Some? ==> r.value in basePaths && HasPrefix(Written(cwd), Written(r.value))
    ensures r.None? ==> forall b :: b in basePaths ==> !HasPrefix(Written(cwd), Written(b))
  {
    if basePaths == [] then None
    else if HasPrefix(Written(cwd), Written(basePaths[0])) then Some(basePaths[0])
    else
      assert basePaths == [basePaths[0]] + basePaths[1..];
      FindBase(basePaths[1..], cwd)
  }

  // ---- The missing separator check --------------------------------------------------------

  /** `cwd` lies in `base`: its components start with those of `base`. */
  predicate Inside(base: Path, cwd: Path) {
    |base| <= |cwd| && cwd[..|base|] == base
  }

  lemma {:induction false} JoinedStart(p: Path)
    ensures p != [] ==> Joined(p)[0] == '/'
  {}

  lemma {:induction false} TextPrefix(base: Path, cwd: Path)
    requires Clean(base) && Clean(cwd) && base != []
    requires HasPrefix(Joined(cwd), Joined(base))
    ensures |base| <= |cwd| && base[..|base| - 1] == cwd[..|base| - 1]
  {
    JoinedStart(base);
    assert cwd != [];
    if |base| > 1 {
      var b, c := base[0], cwd[0];
      assert b in base && c in cwd;
      HeadsAgree(b, c, Joined(base[1..]), Joined(cwd[1..]));
      assert forall x :: x in base[1..] ==> x in base;
      assert forall x :: x in cwd[1..] ==> x in cwd;
      TextPrefix(base[1..], cwd[1..]);
      assert base[..|base| - 1] == [b] + base[1..][..|base| - 2];
      assert cwd[..|base| - 1] == [c] + cwd[1..][..|base| - 2];
    }
  }

  lemma {:induction false} IndexInPrefix(s: string, t: string, c: char)
    requires HasPrefix(s, t) && Index(t, c) < |t|
    ensures Index(s, c) == Index(t, c)
  {
    if t[0] != c {
      assert s[1..][..|t| - 1] == t[1..];
      IndexInPrefix(s[1..], t[1..], c);
    }
  }

  lemma {:induction false} IndexAbsent(s: string, c: char)
    requires c !in s
    ensures Index(s, c) == |s|
  {
    if s != "" {
      assert s[0] in s;
      IndexAbsent(s[1..], c);
    }
  }

  lemma {:induction false} SlashAfter(b: string, s: string)
    requires '/' !in b && (s == "" || s[0] == '/')
    ensures Index(b + s, '/') == |b|
  {
    if s == "" {
      assert b + s == b;
      IndexAbsent(b, '/');
    } else {
      assert b + ['/'] + s[1..] == b + s;
      IndexAppended(b, '/', s[1..]);
    }
  }

  lemma {:induction false} HeadsAgree(b: string, c: string, s: string, t: string)
    requires '/' !in b && '/' !in c && s != "" && s[0] == '/'
    requires t == "" || t[0] == '/'
    requires HasPrefix("/" + c + t, "/" + b + s)
    ensures b == c && HasPrefix(t, s)
  {
    var long, short := c + t, b + s;
    assert ("/" + b + s)[1..] == short && ("/" + c + t)[1..] == long;
    assert ("/" + c + t)[..1 + |short|][1..] == long[..|short|];
    SlashAfter(b, s);
    SlashAfter(c, t);
    IndexInPrefix(long, short, '/');
    assert short[..|b|] == b && long[..|c|] == c && long[..|short|][..|b|] == long[..|b|];
    assert long[|c|..] == t && short[|b|..] == s && long[..|short|][|b|..] == t[..|s|];
  }

  lemma {:induction false} CommonInside(base: Path, cwd: Path)
    ensures CommonLength(base, cwd) == |base| <==> Inside(base, cwd)
  {
    if Inside(base, cwd) {
      assert forall k :: 0 <= k < |base| ==> base[k] == cwd[..|base|][k];
    }
  }

  lemma {:induction false} FilterKeepsHead<T(!new)>(s: seq<T>, p: T -> bool)
    requires s != [] && p(s[0])
    ensures Filter(s, p) != [] && Filter(s, p)[0] == s[0]
  {
    if |s| > 1 {
      FilterKeepsHead(s[..|s| - 1], p);
    }
  }

  lemma {:induction false} InsideNotParent(base: Path, cwd: Path)
    requires Clean(cwd) && Inside(base, cwd)
    ensures ResolvePathInfo(base, cwd).topLevelFolder != ".."
  {
    CommonInside(base, cwd);
    var parts := if |base| == |cwd| then ["."] else cwd[|base|..];
    assert Relative(base, cwd) == parts;
    forall c | c in parts ensures c != ".." {
      if |base| < |cwd| { assert c in cwd; }
    }
    var kept := Filter(parts, (c: string) => c != "" && c != "." && !IgnoredDir(c));
    if kept != [] {
      assert kept[0] in kept;
    }
  }

  lemma {:induction false} BesideIsParent(base: Path, cwd: Path)
    requires CommonLength(base, cwd) < |base|
    ensures ResolvePathInfo(base, cwd).topLevelFolder == ".."
  {
    var parts := Relative(base, cwd);
    assert parts[0] == "..";
    FilterKeepsHead(parts, (c: string) => c != "" && c != "." && !IgnoredDir(c));
  }

  /** A directory that matched a base path by its text but lies beside it, as
      "/home/projects" beside "/home/proj", is filed under the folder "..";
      and nothing else ever is. */
  lemma {:induction false} FiledUnderParentIff(base: Path, cwd: Path)
    requires Clean(cwd)
    ensures ResolvePathInfo(base, cwd).topLevelFolder == ".." <==> !Inside(base, cwd)
  {
    CommonInside(base, cwd);
    if Inside(base, cwd) {
      InsideNotParent(base, cwd);
    } else {
      BesideIsParent(base, cwd);
    }
  }

  /** Matching by text alone lets in just the directories whose name goes on
      where the base path stops: their parent is the base path's parent. */
  lemma {:induction false} MatchedBesideIff(base: Path, cwd: Path)
    requires Clean(base) && Clean(cwd) && base != []
    ensures HasPrefix(Written(cwd), Written(base)) && !Inside(base, cwd) <==>
              |base| <= |cwd| && base[..|base| - 1] == cwd[..|base| - 1]
              && HasPrefix(cwd[|base| - 1], base[|base| - 1]) && cwd[|base| - 1] != base[|base| - 1]
  {
    assert base[0] in base && |Joined(base)| >= 2;
    if |base| <= |cwd| && base[..|base| - 1] == cwd[..|base| - 1] {
      SameParent(base, cwd);
      LastDecides(base, cwd);
    } else if HasPrefix(Written(cwd), Written(base)) {
      TextPrefix(base, cwd);
    }
  }

  lemma {:induction false} SameParent(base: Path, cwd: Path)
    requires base != [] && |base| <= |cwd| && base[..|base| - 1] == cwd[..|base| - 1]
    ensures Inside(base, cwd) <==> cwd[|base| - 1] == base[|base| - 1]
  {
    assert base == base[..|base| - 1] + [base[|base| - 1]];
    assert cwd[..|base|] == cwd[..|base| - 1] + [cwd[|base| - 1]];
  }

  lemma {:induction false} LastDecides(base: Path, cwd: Path)
    requires Clean(base) && Clean(cwd) && base != []
    requires |base| <= |cwd| && base[..|base| - 1] == cwd[..|base| - 1]
    ensures HasPrefix(Joined(cwd), Joined(base)) <==> HasPrefix(cwd[|base| - 1], base[|base| - 1])
  {
    var b, c := base[0], cwd[0];
    assert b in base && c in cwd;
    if |base| == 1 {
      assert Joined(base) == "/" + b;
      LastComponent(b, c, Joined(cwd[1..]));
    } else {
      SameButLast(base, cwd);
      LastDecides(base[1..], cwd[1..]);
      CancelHead("/" + b, Joined(cwd[1..]), Joined(base[1..]));
    }
  }

  lemma {:induction false} SameButLast(base: Path, cwd: Path)
    requires Clean(base) && Clean(cwd) && 1 < |base| <= |cwd| && base[..|base| - 1] == cwd[..|base| - 1]
    ensures base[0] == cwd[0] && base[1..][..|base| - 2] == cwd[1..][..|base| - 2]
    ensures Clean(base[1..]) && Clean(cwd[1..])
  {
    assert forall x :: x in base[1..] ==> x in base;
    assert forall x :: x in cwd[1..] ==> x in cwd;
    assert base[0] == base[..|base| - 1][0] == cwd[..|base| - 1][0] == cwd[0];
    assert base[1..][..|base| - 2] == base[..|base| - 1][1..] == cwd[..|base| - 1][1..] == cwd[1..][..|base| - 2];
  }

  lemma {:induction false} CancelHead(h: string, s: string, t: string)
    ensures HasPrefix(h + s, h + t) <==> HasPrefix(s, t)
  {
    assert (h + t)[|h|..] == t && (h + s)[|h|..] == s;
    if |t| <= |s| {
      assert (h + s)[..|h + t|] == h + s[..|t|];
      assert (h + s[..|t|])[|h|..] == s[..|t|];
    }
  }

  lemma {:induction false} LastComponent(b: string, c: string, t: string)
    requires '/' !in b && '/' !in c && (t == "" || t[0] == '/')
    ensures HasPrefix("/" + c + t, "/" + b) <==> HasPrefix(c, b)
  {
    CancelHead("/", c + t, b);
    assert "/" + (c + t) == "/" + c + t;
    assert |c| < |b| ==> b[|c|] in b;
    assert t != "" ==> (c + t)[|c|] == '/';
    if |b| <= |c| {
      assert (c + t)[..|b|] == c[..|b|];
    }
  }
}
