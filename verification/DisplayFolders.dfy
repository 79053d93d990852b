/** The folder under which the dashboard shows a process, against the one under
    which the scan files it. */
module DisplayFolders {
  import opened Basics
  import opened Text
  import opened Paths
  import Dashboard

  function WrittenAll(basePaths: seq<Path>): (r: seq<string>)
    ensures |r| == |basePaths|
  {
    seq(|basePaths|, i requires 0 <= i < |basePaths| => Written(basePaths[i]))
  }

  predicate Matches(base: Path, cwd: Path) { HasPrefix(Written(cwd), Written(base)) }

  /** Of several base paths that match, the first counts. */
  lemma {:induction false} FirstMatchCounts(basePaths: seq<Path>, i: nat, cwd: Path)
    requires i < |basePaths| && Matches(basePaths[i], cwd)
    requires forall j :: 0 <= j < i ==> !Matches(basePaths[j], cwd)
    ensures FindBase(basePaths, cwd) == Some(basePaths[i])
  {
    if i > 0 {
      FirstMatchCounts(basePaths[1..], i - 1, cwd);
    }
  }

  lemma {:induction false} WrittenRest(basePaths: seq<Path>)
    requires basePaths != []
    ensures WrittenAll(basePaths)[0] == Written(basePaths[0])
    ensures WrittenAll(basePaths)[1..] == WrittenAll(basePaths[1..])
  {}

  /** Both sides agree on the base path that counts. */
  lemma {:induction false} TrimsFoundBase(basePaths: seq<Path>, cwd: Path)
    ensures FindBase(basePaths, cwd).Some? ==> Written(FindBase(basePaths, cwd).value) <= Written(cwd)
    ensures Dashboard.TrimBasePath(Written(cwd), WrittenAll(basePaths)) ==
              match FindBase(basePaths, cwd)
              case Some(base) => Dashboard.Trimmed(Written(cwd), Written(base))
              case None => Written(cwd)
  {
    if basePaths != [] {
      var rest := basePaths[1..];
      WrittenRest(basePaths);
      TrimsFoundBase(rest, cwd);
    }
  }

  lemma {:induction false} JoinedAppended(p: Path, q: Path)
    ensures Joined(p + q) == Joined(p) + Joined(q)
  {
    if p == [] {
      assert p + q == q;
    } else {
      assert (p + q)[1..] == p[1..] + q;
      JoinedAppended(p[1..], q);
    }
  }

  lemma {:induction false} FirstComponent(c: string, rest: Path)
    requires '/' !in c
    ensures BeforeFirst(c + Joined(rest), '/') == c
  {
    JoinedStart(rest);
    SlashAfter(c, Joined(rest));
    assert (c + Joined(rest))[..|c|] == c;
  }

  /** What is left of a text after a base: one separator goes too. */
  lemma {:induction false} TrimmedRest(base: string, rest: string)
    ensures base <= base + rest
    ensures Dashboard.Trimmed(base + rest, base) == if rest != "" && rest[0] == '/' then rest[1..] else rest
  {
    assert (base + rest)[|base|..] == rest;
  }

  // ---- Inside the base path ---------------------------------------------------------------

  lemma {:induction false} WrittenInside(base: Path, c: string, rest: Path)
    requires c != "" && '/' !in c
    ensures Written(base) <= Written(base + [c] + rest)
    ensures BeforeFirst(Dashboard.Trimmed(Written(base + [c] + rest), Written(base)), '/') == c
  {
    JoinedAppended(base, [c] + rest);
    assert base + [c] + rest == base + ([c] + rest);
    assert Joined([c] + rest) == "/" + c + Joined(rest);
    var below := c + Joined(rest);
    assert "/" + c + Joined(rest) == "/" + below;
    FirstComponent(c, rest);
    if base == [] {
      TrimmedRest("/", below);
    } else {
      TrimmedRest(Joined(base), "/" + below);
      assert ("/" + below)[1..] == below;
    }
  }

  /** Inside the base path, the dashboard shows the first component under it. */
  lemma {:induction false} ShownInside(base: Path, cwd: Path)
    requires Clean(base) && Clean(cwd) && Inside(base, cwd)
    ensures Written(base) <= Written(cwd)
    ensures BeforeFirst(Dashboard.Trimmed(Written(cwd), Written(base)), '/') == if cwd == base then "" else cwd[|base|]
  {
    assert base == cwd[..|base|];
    if |cwd| > |base| {
      var c, rest := cwd[|base|], cwd[|base| + 1..];
      assert c in cwd && cwd == base + [c] + rest;
      WrittenInside(base, c, rest);
    } else {
      assert cwd == base;
      TrimmedRest(Written(base), "");
      assert Written(base) + "" == Written(base);
    }
  }

  lemma {:induction false} FiledInside(base: Path, cwd: Path)
    requires Clean(cwd) && Inside(base, cwd) && cwd != base
    ensures cwd[|base|] != ""
    ensures ResolvePathInfo(base, cwd).topLevelFolder == cwd[|base|] <==> !IgnoredDir(cwd[|base|])
  {
    var parts := Relative(base, cwd);
    CommonInside(base, cwd);
    assert cwd[..|base|] == base;
    assert |cwd| > |base|;
    assert parts == cwd[|base|..] && parts[0] == cwd[|base|];
    assert cwd[|base|] in cwd;
    var keep := (c: string) => c != "" && c != "." && !IgnoredDir(c);
    if !IgnoredDir(parts[0]) {
      FilterKeepsHead(parts, keep);
    } else {
      assert forall c :: c in Filter(parts, keep) ==> !IgnoredDir(c);
    }
  }

  // ---- Beside the base path ---------------------------------------------------------------

  lemma {:induction false} WrittenBeside(parent: Path, b: string, x: string, rest: Path)
    requires x != "" && '/' !in x
    ensures Written(parent + [b]) <= Written(parent + [b + x] + rest)
    ensures BeforeFirst(Dashboard.Trimmed(Written(parent + [b + x] + rest), Written(parent + [b])), '/') == x
  {
    JoinedAppended(parent, [b]);
    JoinedAppended(parent, [b + x] + rest);
    assert parent + [b + x] + rest == parent + ([b + x] + rest);
    assert Joined([b]) == "/" + b;
    assert Joined([b + x] + rest) == "/" + (b + x) + Joined(rest);
    var base, below := Joined(parent) + ("/" + b), x + Joined(rest);
    assert Joined(parent) + ("/" + (b + x) + Joined(rest)) == base + below;
    TrimmedRest(base, below);
    FirstComponent(x, rest);
  }

  /** Beside it, the dashboard shows what the directory's name has over the base
      path's. */
  lemma {:induction false} ShownBeside(base: Path, cwd: Path)
    requires Clean(base) && Clean(cwd) && HasPrefix(Written(cwd), Written(base)) && !Inside(base, cwd)
    ensures 0 < |base| <= |cwd| && |base[|base| - 1]| < |cwd[|base| - 1]|
    ensures cwd[|base| - 1] == base[|base| - 1] + cwd[|base| - 1][|base[|base| - 1]|..]
    ensures Written(base) <= Written(cwd)
    ensures BeforeFirst(Dashboard.Trimmed(Written(cwd), Written(base)), '/') == cwd[|base| - 1][|base[|base| - 1]|..]
  {
    MatchedBesideIff(base, cwd);
    var n := |base| - 1;
    var b, c := base[n], cwd[n];
    var parent, x, rest := base[..n], c[|b|..], cwd[n + 1..];
    assert c == b + x && c in cwd;
    BesideParts(base, cwd, parent, b, x, rest);
    WrittenBeside(parent, b, x, rest);
  }

  lemma {:induction false} BesideParts(base: Path, cwd: Path, parent: Path, b: string, x: string, rest: Path)
    requires 0 < |base| <= |cwd| && base[..|base| - 1] == cwd[..|base| - 1] == parent
    requires base[|base| - 1] == b && cwd[|base| - 1] == b + x && rest == cwd[|base|..]
    ensures base == parent + [b] && cwd == parent + [b + x] + rest
  {}

  // ---- Shown against filed ----------------------------------------------------------------

  /** When the dashboard shows a process under the folder it is filed under: for
      a directory inside the base path, when the first folder on its way is no
      monorepo folder, which filing skips and showing does not; for one beside
      it, which is filed under "..", only when its name is the base path's with
      two dots appended. */
  predicate ShownAsFiled(base: Path, cwd: Path)
    requires Inside(base, cwd) || 0 < |base| <= |cwd|
  {
    if Inside(base, cwd) then cwd == base || !IgnoredDir(cwd[|base|])
    else cwd[|base| - 1] == base[|base| - 1] + ".."
  }

  lemma {:induction false} ShownAsFiledIff(basePaths: seq<Path>, base: Path, cwd: Path)
    requires Clean(base) && Clean(cwd) && FindBase(basePaths, cwd) == Some(base)
    ensures Inside(base, cwd) || 0 < |base| <= |cwd|
    ensures Dashboard.DisplayFolder(Written(cwd), WrittenAll(basePaths)) == ResolvePathInfo(base, cwd).topLevelFolder
       <==> ShownAsFiled(base, cwd)
  {
    TrimsFoundBase(basePaths, cwd);
    if Inside(base, cwd) {
      ShownInside(base, cwd);
      if cwd == base {
        CommonInside(base, cwd);
      } else {
        FiledInside(base, cwd);
      }
    } else {
      ShownBeside(base, cwd);
      FiledUnderParentIff(base, cwd);
      var b, c := base[|base| - 1], cwd[|base| - 1];
      assert c == b + c[|b|..] && (b + "..")[|b|..] == "..";
    }
  }

  /** A process in /home/projects/x, with /home/proj watched, is shown under
      "ects" and filed under "..": so it goes for every name continued. */
  lemma {:induction false} BesideShownOtherwise(parent: Path, b: string, x: string, rest: Path)
    requires Clean(parent + [b]) && Clean(parent + [b + x] + rest) && x != "" && x != ".."
    ensures var base, cwd := parent + [b], parent + [b + x] + rest;
            && FindBase([base], cwd) == Some(base)
            && Dashboard.DisplayFolder(Written(cwd), WrittenAll([base])) == x
            && ResolvePathInfo(base, cwd).topLevelFolder == ".."
  {
    var base, cwd := parent + [b], parent + [b + x] + rest;
    assert cwd[|parent|] == b + x && cwd[|parent|] in cwd;
    assert '/' !in x by {
      assert forall i :: 0 <= i < |x| ==> x[i] == (b + x)[|b| + i];
    }
    WrittenBeside(parent, b, x, rest);
    TrimsFoundBase([base], cwd);
    assert cwd[..|base|][|parent|] != base[|parent|];
    FiledUnderParentIff(base, cwd);
  }

  /** A process in base/apps/web is shown under "apps" and filed under "web". */
  lemma {:induction false} MonorepoShownOtherwise(base: Path, ignored: string, folder: string)
    requires Clean(base + [ignored, folder]) && IgnoredDir(ignored) && !IgnoredDir(folder)
    ensures var cwd := base + [ignored, folder];
            && FindBase([base], cwd) == Some(base)
            && Dashboard.DisplayFolder(Written(cwd), WrittenAll([base])) == ignored
            && ResolvePathInfo(base, cwd).topLevelFolder == folder
  {
    var bases, cwd := [base], base + [ignored, folder];
    TwoMore(base, ignored, folder);
    WrittenInside(base, ignored, [folder]);
    TrimsFoundBase(bases, cwd);
    FiledPastIgnored(base, ignored, folder);
  }

  lemma {:induction false} TwoMore(base: Path, a: string, b: string)
    ensures base + [a, b] == base + [a] + [b] && a in base + [a, b] && b in base + [a, b]
  {
    assert (base + [a, b])[|base|] == a && (base + [a, b])[|base| + 1] == b;
  }

  lemma {:induction false} FiledPastIgnored(base: Path, ignored: string, folder: string)
    requires IgnoredDir(ignored) && !IgnoredDir(folder) && folder != "" && folder != "."
    ensures ResolvePathInfo(base, base + [ignored, folder]).topLevelFolder == folder
  {
    var cwd, parts := base + [ignored, folder], [ignored, folder];
    assert cwd[..|base|] == base && cwd[|base|..] == parts;
    CommonInside(base, cwd);
    var keep := (c: string) => c != "" && c != "." && !IgnoredDir(c);
    OnlySecondKept(ignored, folder, keep);
    assert Relative(base, cwd) == parts;
  }

  lemma {:induction false} OnlySecondKept<T(!new)>(a: T, b: T, p: T -> bool)
    requires !p(a) && p(b)
    ensures Filter([a, b], p) == [b]
  {
    assert [a, b][..1] == [a] && [a][..0] == [];
    assert Filter([a], p) == [];
  }
}
