/** What the dashboard lists: every backend on one shelf, processes of one
    folder together. */
module Dashboard {
  import opened Basics
  import opened Discovered
  import Text
  import Sorting

  // ---- Display folders --------------------------------------------------------------------

  function TrimBasePath(cwd: string, basePaths: seq<string>): string {
    if basePaths == [] then cwd
    else if basePaths[0] <= cwd then Trimmed(cwd, basePaths[0])
    else TrimBasePath(cwd, basePaths[1..])
  }

  function Trimmed(cwd: string, base: string): string
    requires base <= cwd
  {
    var rest := cwd[|base|..];
    if rest != "" && rest[0] == '/' then rest[1..] else rest
  }

  function DisplayFolder(cwd: string, basePaths: seq<string>): string {
    Text.BeforeFirst(TrimBasePath(cwd, basePaths), '/')
  }

  // ---- Shelves ----------------------------------------------------------------------------

  datatype Shelf = Containers | Running | Stopped | WellKnowns | OtherDisabled

  function ShelfOf(b: Backend): Shelf {
    if b.disabled then if b.source == Process then Stopped else OtherDisabled
    else if b.source == WellKnown then WellKnowns
    else if b.source == Docker then Containers
    else Running
  }

  function On(listed: seq<Backend>, shelf: Shelf): seq<Backend> {
    if listed == [] then []
    else
      var init, last := listed[..|listed| - 1], listed[|listed| - 1];
      if ShelfOf(last) == shelf then On(init, shelf) + [last] else On(init, shelf)
  }

  lemma {:induction false} OnMembers(listed: seq<Backend>, shelf: Shelf)
    ensures forall b :: b in On(listed, shelf) <==> b in listed && ShelfOf(b) == shelf
  {
    if listed != [] {
      var init, last := listed[..|listed| - 1], listed[|listed| - 1];
      OnMembers(init, shelf);
      assert listed == init + [last];
    }
  }

  lemma {:induction false} OnCount(listed: seq<Backend>, shelf: Shelf, b: Backend)
    ensures multiset(On(listed, shelf))[b] == if ShelfOf(b) == shelf then multiset(listed)[b] else 0
  {
    if listed != [] {
      var init, last := listed[..|listed| - 1], listed[|listed| - 1];
      assert listed == init + [last];
      OnCount(init, shelf, b);
    }
  }

  lemma {:induction false} OnDistinct(listed: seq<Backend>, shelf: Shelf)
    requires Sorting.Distinct(listed, NameOf)
    ensures Sorting.Distinct(On(listed, shelf), NameOf)
  {
    if listed != [] {
      var init, last := listed[..|listed| - 1], listed[|listed| - 1];
      OnDistinct(init, shelf);
      OnMembers(init, shelf);
      assert forall b :: b in On(init, shelf) ==> NameOf(b) != NameOf(last);
    }
  }

  function NameOf(b: Backend): string { b.route.subdomain }

  // ---- Groups of processes ----------------------------------------------------------------

  datatype Placed = Placed(backend: Backend, folder: string)

  datatype Group = Group(cwd: string, folder: string, backends: seq<Backend>)

  function PlacedAll(backends: seq<Backend>, basePaths: seq<string>): (r: seq<Placed>)
    ensures |r| == |backends|
    ensures forall i :: 0 <= i < |r| ==> r[i] == Placed(backends[i], DisplayFolder(backends[i].cwd, basePaths))
  {
    seq(|backends|, i requires 0 <= i < |backends| =>
      Placed(backends[i], DisplayFolder(backends[i].cwd, basePaths)))
  }

  /** The backends whose folder is one of `folders`, or (`!inside`) is none of them. */
  function InFolders(placed: seq<Placed>, folders: set<string>, inside: bool): seq<Backend> {
    if placed == [] then []
    else
      var last := placed[|placed| - 1];
      InFolders(placed[..|placed| - 1], folders, inside)
      + if (last.folder in folders) == inside then [last.backend] else []
  }

  function InFolder(placed: seq<Placed>, folder: string): seq<Backend> { InFolders(placed, {folder}, true) }

  function Shared(placed: seq<Placed>): set<string> {
    set p | p in placed && p.folder != "" && |InFolder(placed, p.folder)| > 1 :: p.folder
  }

  function BackendsOf(groups: seq<Group>): multiset<Backend> {
    if groups == [] then multiset{}
    else BackendsOf(groups[..|groups| - 1]) + multiset(groups[|groups| - 1].backends)
  }

  lemma {:induction false} InFolderMore(placed: seq<Placed>, i: nat, f: string)
    requires i < |placed|
    ensures InFolder(placed[..i + 1], f) ==
              if placed[i].folder == f then InFolder(placed[..i], f) + [placed[i].backend] else InFolder(placed[..i], f)
    ensures |InFolder(placed[..i + 1], f)| == |InFolder(placed[..i], f)| + if placed[i].folder == f then 1 else 0
  {
    assert placed[..i + 1][..i] == placed[..i];
  }

  ghost predicate Counted(placed: seq<Placed>, n: nat, counts: map<string, nat>)
    requires n <= |placed|
  {
    && "" !in counts
    && (forall f :: f in counts ==> counts[f] == |InFolder(placed[..n], f)|)
    && (forall f :: f !in counts && f != "" ==> |InFolder(placed[..n], f)| == 0)
    && (forall i :: 0 <= i < n && placed[i].folder != "" ==> placed[i].folder in counts)
  }

  lemma {:induction false} CountStep(placed: seq<Placed>, n: nat, counts: map<string, nat>)
    requires n < |placed| && Counted(placed, n, counts)
    ensures var f := placed[n].folder;
            Counted(placed, n + 1,
                    if f == "" then counts else counts[f := (if f in counts then counts[f] else 0) + 1])
  {
    forall f ensures |InFolder(placed[..n + 1], f)|
                  == |InFolder(placed[..n], f)| + if placed[n].folder == f then 1 else 0
    {
      InFolderMore(placed, n, f);
    }
  }

  method CountFolders(placed: seq<Placed>) returns (counts: map<string, nat>)
    ensures forall f :: f in counts ==> counts[f] == |InFolder(placed, f)|
    ensures forall p :: p in placed && p.folder != "" ==> p.folder in counts
  {
    counts := map[];
    for i := 0 to |placed|
      invariant Counted(placed, i, counts)
    {
      CountStep(placed, i, counts);
      var f := placed[i].folder;
      if f != "" {
        counts := counts[f := (if f in counts then counts[f] else 0) + 1];
      }
    }
    assert placed[..|placed|] == placed;
  }

  method BackendsIn(placed: seq<Placed>, folder: string) returns (r: seq<Backend>)
    ensures r == InFolder(placed, folder)
  {
    r := [];
    for i := 0 to |placed|
      invariant r == InFolder(placed[..i], folder)
    {
      assert placed[..i + 1][..i] == placed[..i];
      if placed[i].folder == folder {
        r := r + [placed[i].backend];
      }
    }
    assert placed[..|placed|] == placed;
  }

  /** One group per folder that several processes share, in the order in which the
      folders come, and the processes of no such folder. */
  ghost predicate Grouped(placed: seq<Placed>, groups: seq<Group>, ungrouped: seq<Backend>) {
    && (forall i :: 0 <= i < |groups| ==>
          groups[i].folder in Shared(placed) && groups[i].backends == InFolder(placed, groups[i].folder))
    && (forall i, j :: 0 <= i < j < |groups| ==> groups[i].folder != groups[j].folder)
    && (forall f :: f in Shared(placed) ==> exists i :: 0 <= i < |groups| && groups[i].folder == f)
    && ungrouped == InFolders(placed, Shared(placed), false)
  }

  /** A group carries the directory of its first backend. */
  predicate Headed(g: Group) { g.backends != [] && g.cwd == g.backends[0].cwd }

  /** The grouping loop after the first `n` processes. */
  ghost predicate Grouping(placed: seq<Placed>, n: nat, grouped: set<string>, groups: seq<Group>,
                           ungrouped: seq<Backend>)
    requires n <= |placed|
  {
    && (forall i :: 0 <= i < n && placed[i].folder in Shared(placed) ==> placed[i].folder in grouped)
    && (forall f :: f in grouped <==> exists i :: 0 <= i < |groups| && groups[i].folder == f)
    && (forall i :: 0 <= i < |groups| ==>
          && groups[i].folder in Shared(placed) && groups[i].backends == InFolder(placed, groups[i].folder)
          && Headed(groups[i]))
    && (forall i, j :: 0 <= i < j < |groups| ==> groups[i].folder != groups[j].folder)
    && ungrouped == InFolders(placed[..n], Shared(placed), false)
  }

  lemma {:induction false} GroupStep(placed: seq<Placed>, n: nat, grouped: set<string>, groups: seq<Group>,
                                     ungrouped: seq<Backend>)
    requires n < |placed| && Grouping(placed, n, grouped, groups, ungrouped)
    ensures var p := placed[n];
            if p.folder !in Shared(placed) then Grouping(placed, n + 1, grouped, groups, ungrouped + [p.backend])
            else if p.folder in grouped then Grouping(placed, n + 1, grouped, groups, ungrouped)
            else Grouping(placed, n + 1, grouped + {p.folder},
                          groups + [Group(p.backend.cwd, p.folder, InFolder(placed, p.folder))], ungrouped)
  {
    var p := placed[n];
    OutsideMore(placed, n, Shared(placed));
    if p.folder in Shared(placed) && p.folder !in grouped {
      NewGroup(placed, n, grouped, groups, ungrouped);
    }
  }

  /** The first process of a shared folder opens the group of that folder. */
  lemma {:induction false} NewGroup(placed: seq<Placed>, n: nat, grouped: set<string>, groups: seq<Group>,
                                    ungrouped: seq<Backend>)
    requires n < |placed| && Grouping(placed, n, grouped, groups, ungrouped)
    requires placed[n].folder in Shared(placed) && placed[n].folder !in grouped
    ensures var f := placed[n].folder;
            Grouping(placed, n + 1, grouped + {f},
                     groups + [Group(placed[n].backend.cwd, f, InFolder(placed, f))], ungrouped)
  {
    var f := placed[n].folder;
    var g := Group(placed[n].backend.cwd, f, InFolder(placed, f));
    OutsideMore(placed, n, Shared(placed));
    FirstOfFolder(placed, n);
    FolderAdded(grouped, groups, g);
    var groups' := groups + [g];
    assert g == groups'[|groups|];
    forall i | 0 <= i < |groups'|
      ensures groups'[i].folder in Shared(placed) && Headed(groups'[i])
      ensures groups'[i].backends == InFolder(placed, groups'[i].folder)
    {
      assert i < |groups| ==> groups'[i] == groups[i];
    }
    forall i, j | 0 <= i < j < |groups'| ensures groups'[i].folder != groups'[j].folder {
      assert groups'[i] == groups[i] && groups[i].folder in grouped;
    }
  }

  lemma {:induction false} FolderAdded(grouped: set<string>, groups: seq<Group>, g: Group)
    requires forall f :: f in grouped <==> exists i :: 0 <= i < |groups| && groups[i].folder == f
    ensures forall f :: f in grouped + {g.folder} <==>
              exists i :: 0 <= i < |groups + [g]| && (groups + [g])[i].folder == f
  {
    var groups' := groups + [g];
    assert groups'[|groups|].folder == g.folder;
    forall f ensures f in grouped + {g.folder} <==> exists i :: 0 <= i < |groups'| && groups'[i].folder == f {
      if f in grouped {
        var i :| 0 <= i < |groups| && groups[i].folder == f;
        assert groups'[i].folder == f;
      }
    }
  }

  lemma {:induction false} GroupingDone(placed: seq<Placed>, grouped: set<string>, groups: seq<Group>,
                                        ungrouped: seq<Backend>)
    requires Grouping(placed, |placed|, grouped, groups, ungrouped)
    ensures Grouped(placed, groups, ungrouped) && forall g :: g in groups ==> Headed(g)
  {
    assert placed[..|placed|] == placed;
    forall f | f in Shared(placed) ensures exists i :: 0 <= i < |groups| && groups[i].folder == f {
      var p :| p in placed && p.folder == f;
      var i :| 0 <= i < |placed| && placed[i] == p;
      assert placed[i].folder in grouped;
    }
  }

  method GroupProcesses(placed: seq<Placed>) returns (groups: seq<Group>, ungrouped: seq<Backend>)
    ensures Grouped(placed, groups, ungrouped)
    ensures forall g :: g in groups ==> Headed(g)
  {
    var counts := CountFolders(placed);
    groups, ungrouped := [], [];
    var grouped: set<string> := {};
    for n := 0 to |placed|
      invariant Grouping(placed, n, grouped, groups, ungrouped)
    {
      var p := placed[n];
      assert p in placed;
      SharedIff(placed, p);
      GroupStep(placed, n, grouped, groups, ungrouped);
      if p.folder != "" && counts[p.folder] > 1 {
        if p.folder !in grouped {
          grouped := grouped + {p.folder};
          var members := BackendsIn(placed, p.folder);
          groups := groups + [Group(p.backend.cwd, p.folder, members)];
        }
      } else {
        ungrouped := ungrouped + [p.backend];
      }
    }
    GroupingDone(placed, grouped, groups, ungrouped);
  }

  lemma {:induction false} OutsideMore(placed: seq<Placed>, i: nat, folders: set<string>)
    requires i < |placed|
    ensures InFolders(placed[..i + 1], folders, false) ==
              if placed[i].folder in folders then InFolders(placed[..i], folders, false)
              else InFolders(placed[..i], folders, false) + [placed[i].backend]
  {
    assert placed[..i + 1][..i] == placed[..i];
  }

  lemma {:induction false} SharedIff(placed: seq<Placed>, p: Placed)
    requires p in placed
    ensures p.folder in Shared(placed) <==> p.folder != "" && |InFolder(placed, p.folder)| > 1
  {}

  lemma {:induction false} FirstOfFolder(placed: seq<Placed>, n: nat)
    requires n < |placed| && forall i :: 0 <= i < n ==> placed[i].folder != placed[n].folder
    ensures InFolder(placed, placed[n].folder) != []
    ensures InFolder(placed, placed[n].folder)[0] == placed[n].backend
  {
    var f := placed[n].folder;
    var init := placed[..|placed| - 1];
    if n < |placed| - 1 {
      FirstOfFolder(init, n);
    } else {
      NoneOfFolder(init, f);
    }
  }

  lemma {:induction false} NoneOfFolder(placed: seq<Placed>, f: string)
    requires forall p :: p in placed ==> p.folder != f
    ensures InFolder(placed, f) == []
  {
    if placed != [] {
      assert placed[|placed| - 1] in placed;
      NoneOfFolder(placed[..|placed| - 1], f);
    }
  }

  // ---- The page ---------------------------------------------------------------------------

  datatype Page = Page(docker: seq<Backend>, groups: seq<Group>, ungrouped: seq<Backend>,
                       wellKnown: seq<Backend>, otherDisabled: seq<Backend>)

  function CwdOf(g: Group): string { g.cwd }

  /** The backends of the table, in the order in which it is walked. */
  function Listed(backends: map<string, Backend>, walk: seq<string>): (r: seq<Backend>)
    requires forall i :: 0 <= i < |walk| ==> walk[i] in backends
    ensures |r| == |walk| && forall i :: 0 <= i < |r| ==> r[i] == backends[walk[i]]
  {
    seq(|walk|, i requires 0 <= i < |walk| => backends[walk[i]])
  }

  /** `shown` is the given backends in the order of their names. */
  ghost predicate ShownInOrder(shown: seq<Backend>, backends: seq<Backend>) {
    Sorting.Ascending(shown, NameOf) && multiset(shown) == multiset(backends)
  }

  ghost predicate ProcessesShown(listed: seq<Backend>, basePaths: seq<string>, processes: seq<Backend>,
                                 groups: seq<Group>, ungrouped: seq<Backend>)
  {
    && ShownInOrder(processes, On(listed, Running) + On(listed, Stopped))
    && Grouped(PlacedAll(processes, basePaths), groups, ungrouped)
    && Sorting.Ascending(groups, CwdOf)
    && forall g :: g in groups ==> Headed(g)
  }

  ghost predicate IsPage(listed: seq<Backend>, basePaths: seq<string>, page: Page) {
    && ShownInOrder(page.docker, On(listed, Containers))
    && ShownInOrder(page.wellKnown, On(listed, WellKnowns))
    && ShownInOrder(page.otherDisabled, On(listed, OtherDisabled))
    && exists processes :: ProcessesShown(listed, basePaths, processes, page.groups, page.ungrouped)
  }

  // ---- Filling the shelves ----------------------------------------------------------------

  lemma {:induction false} OnAppended(s: seq<Backend>, b: Backend, shelf: Shelf)
    ensures On(s + [b], shelf) == if ShelfOf(b) == shelf then On(s, shelf) + [b] else On(s, shelf)
  {
    assert (s + [b])[..|s|] == s;
  }

  lemma {:induction false} OnAscending(s: seq<Backend>, shelf: Shelf)
    requires Sorting.Ascending(s, NameOf)
    ensures Sorting.Ascending(On(s, shelf), NameOf)
  {
    if s != [] {
      OnAscending(s[..|s| - 1], shelf);
      OnMembers(s[..|s| - 1], shelf);
      assert forall b :: b in On(s[..|s| - 1], shelf) ==> Sorting.Before(NameOf(b), NameOf(s[|s| - 1]));
    }
  }

  lemma {:induction false} OnPermuted(s: seq<Backend>, t: seq<Backend>, shelf: Shelf)
    requires multiset(s) == multiset(t)
    ensures multiset(On(s, shelf)) == multiset(On(t, shelf))
  {
    forall b ensures multiset(On(s, shelf))[b] == multiset(On(t, shelf))[b] {
      OnCount(s, shelf, b);
      OnCount(t, shelf, b);
    }
  }

  lemma {:induction false} SortShows(s: seq<Backend>)
    requires Sorting.Distinct(s, NameOf)
    ensures ShownInOrder(Sorting.Sorted(s, NameOf), s)
  {
    Sorting.SortedMeans(s, NameOf);
  }

  lemma {:induction false} TwoShelvesDistinct(listed: seq<Backend>, a: Shelf, b: Shelf)
    requires Sorting.Distinct(listed, NameOf) && a != b
    ensures Sorting.Distinct(On(listed, a) + On(listed, b), NameOf)
  {
    OnDistinct(listed, a);
    OnDistinct(listed, b);
    OnMembers(listed, a);
    OnMembers(listed, b);
    forall x, y | x in On(listed, a) && y in On(listed, b) ensures NameOf(x) != NameOf(y) {
      var i :| 0 <= i < |listed| && listed[i] == x;
      var j :| 0 <= j < |listed| && listed[j] == y;
      assert i < j || j < i;
    }
  }

  lemma {:induction false} SplitMore(listed: seq<Backend>, i: nat, shelf: Shelf)
    requires i < |listed|
    ensures On(listed[..i + 1], shelf) ==
              if ShelfOf(listed[i]) == shelf then On(listed[..i], shelf) + [listed[i]] else On(listed[..i], shelf)
  {
    OnAppended(listed[..i], listed[i], shelf);
    assert listed[..i + 1] == listed[..i] + [listed[i]];
  }

  /** The first loop: enabled, disabled and well-known backends. */
  method Split(listed: seq<Backend>)
    returns (enabled: seq<Backend>, disabled: seq<Backend>, wellKnown: seq<Backend>)
    requires Sorting.Distinct(listed, NameOf)
    ensures SplitUp(listed, enabled, disabled, wellKnown)
    ensures Sorting.Distinct(disabled, NameOf)
  {
    enabled, disabled, wellKnown := [], [], [];
    for i := 0 to |listed|
      invariant SplitUp(listed[..i], enabled, disabled, wellKnown)
      invariant Sorting.Distinct(disabled, NameOf) && forall b :: b in disabled ==> b in listed[..i]
    {
      var b := listed[i];
      SplitStep(listed, i, enabled, disabled, wellKnown);
      if b.disabled {
        assert forall d :: d in disabled ==> NameOf(d) != NameOf(b);
        disabled := disabled + [b];
      } else if b.source == WellKnown {
        wellKnown := wellKnown + [b];
      } else {
        enabled := enabled + [b];
      }
    }
    assert listed[..|listed|] == listed;
  }

  ghost predicate SplitUp(listed: seq<Backend>, enabled: seq<Backend>, disabled: seq<Backend>,
                          wellKnown: seq<Backend>) {
    && wellKnown == On(listed, WellKnowns)
    && On(enabled, Containers) == On(listed, Containers) && On(enabled, Running) == On(listed, Running)
    && On(disabled, Stopped) == On(listed, Stopped) && On(disabled, OtherDisabled) == On(listed, OtherDisabled)
    && (forall b :: b in enabled ==> ShelfOf(b) == Containers || ShelfOf(b) == Running)
    && (forall b :: b in disabled ==> ShelfOf(b) == Stopped || ShelfOf(b) == OtherDisabled)
  }

  lemma {:induction false} SplitStep(listed: seq<Backend>, i: nat, enabled: seq<Backend>,
                                     disabled: seq<Backend>, wellKnown: seq<Backend>)
    requires i < |listed| && SplitUp(listed[..i], enabled, disabled, wellKnown)
    ensures var b := listed[i];
            if b.disabled then SplitUp(listed[..i + 1], enabled, disabled + [b], wellKnown)
            else if b.source == WellKnown then SplitUp(listed[..i + 1], enabled, disabled, wellKnown + [b])
            else SplitUp(listed[..i + 1], enabled + [b], disabled, wellKnown)
  {
    var b := listed[i];
    SplitMore(listed, i, WellKnowns);
    SplitMore(listed, i, Containers);
    SplitMore(listed, i, Running);
    SplitMore(listed, i, Stopped);
    SplitMore(listed, i, OtherDisabled);
    OnAppended(enabled, b, Containers);
    OnAppended(enabled, b, Running);
    OnAppended(disabled, b, Stopped);
    OnAppended(disabled, b, OtherDisabled);
  }

  method Shelve(listed: seq<Backend>)
    returns (docker: seq<Backend>, processes: seq<Backend>, wellKnown: seq<Backend>, otherDisabled: seq<Backend>)
    requires Sorting.Distinct(listed, NameOf)
    ensures ShownInOrder(docker, On(listed, Containers))
    ensures ShownInOrder(processes, On(listed, Running) + On(listed, Stopped))
    ensures ShownInOrder(wellKnown, On(listed, WellKnowns))
    ensures ShownInOrder(otherDisabled, On(listed, OtherDisabled))
  {
    var enabled, disabled;
    enabled, disabled, wellKnown := Split(listed);
    docker, processes := SplitEnabled(enabled);
    processes := AppendStopped(processes, disabled);
    OnDistinct(listed, Containers);
    OnDistinct(listed, WellKnowns);
    TwoShelvesDistinct(listed, Running, Stopped);
    SortShows(docker);
    SortShows(processes);
    SortShows(wellKnown);
    docker := Sorting.Sorted(docker, NameOf);
    processes := Sorting.Sorted(processes, NameOf);
    wellKnown := Sorting.Sorted(wellKnown, NameOf);
    otherDisabled := OtherOf(disabled);
  }

  method AppendStopped(running: seq<Backend>, disabled: seq<Backend>) returns (processes: seq<Backend>)
    requires forall b :: b in disabled ==> ShelfOf(b) == Stopped || ShelfOf(b) == OtherDisabled
    ensures processes == running + On(disabled, Stopped)
  {
    processes := running;
    for i := 0 to |disabled|
      invariant processes == running + On(disabled[..i], Stopped)
    {
      SplitMore(disabled, i, Stopped);
      assert disabled[i] in disabled;
      if disabled[i].source == Process {
        processes := processes + [disabled[i]];
      }
    }
    assert disabled[..|disabled|] == disabled;
  }

  method SplitEnabled(enabled: seq<Backend>) returns (docker: seq<Backend>, processes: seq<Backend>)
    requires forall b :: b in enabled ==> ShelfOf(b) == Containers || ShelfOf(b) == Running
    ensures docker == On(enabled, Containers) && processes == On(enabled, Running)
  {
    docker, processes := [], [];
    for i := 0 to |enabled|
      invariant docker == On(enabled[..i], Containers) && processes == On(enabled[..i], Running)
    {
      SplitMore(enabled, i, Containers);
      SplitMore(enabled, i, Running);
      assert enabled[i] in enabled;
      if enabled[i].source == Docker {
        docker := docker + [enabled[i]];
      } else {
        processes := processes + [enabled[i]];
      }
    }
    assert enabled[..|enabled|] == enabled;
  }

  /** The disabled backends that are no processes, picked after sorting. */
  method OtherOf(disabled: seq<Backend>) returns (otherDisabled: seq<Backend>)
    requires Sorting.Distinct(disabled, NameOf)
    requires forall b :: b in disabled ==> ShelfOf(b) == Stopped || ShelfOf(b) == OtherDisabled
    ensures ShownInOrder(otherDisabled, On(disabled, OtherDisabled))
  {
    var sorted := Sorting.Sorted(disabled, NameOf);
    SortShows(disabled);
    OnAscending(sorted, OtherDisabled);
    OnPermuted(sorted, disabled, OtherDisabled);
    Sorting.SortedSame(disabled, NameOf);
    otherDisabled := NoProcesses(sorted);
  }

  method NoProcesses(disabled: seq<Backend>) returns (r: seq<Backend>)
    requires forall b :: b in disabled ==> ShelfOf(b) == Stopped || ShelfOf(b) == OtherDisabled
    ensures r == On(disabled, OtherDisabled)
  {
    r := [];
    for i := 0 to |disabled|
      invariant r == On(disabled[..i], OtherDisabled)
    {
      SplitMore(disabled, i, OtherDisabled);
      assert disabled[i] in disabled;
      if disabled[i].source != Process {
        r := r + [disabled[i]];
      }
    }
    assert disabled[..|disabled|] == disabled;
  }

  // ---- Sorting the groups -----------------------------------------------------------------

  lemma {:induction false} InFolderFrom(placed: seq<Placed>, f: string, b: Backend)
    requires b in InFolder(placed, f)
    ensures Placed(b, f) in placed
  {
    var init, last := placed[..|placed| - 1], placed[|placed| - 1];
    assert placed == init + [last];
    if last != Placed(b, f) {
      InFolderFrom(init, f, b);
    }
  }

  lemma {:induction false} GroupFolders(processes: seq<Backend>, basePaths: seq<string>, groups: seq<Group>,
                                        ungrouped: seq<Backend>)
    requires Grouped(PlacedAll(processes, basePaths), groups, ungrouped) && forall g :: g in groups ==> Headed(g)
    ensures Sorting.Distinct(groups, CwdOf)
  {
    var placed := PlacedAll(processes, basePaths);
    forall i | 0 <= i < |groups| ensures groups[i].folder == DisplayFolder(groups[i].cwd, basePaths) {
      assert Headed(groups[i]);
      InFolderFrom(placed, groups[i].folder, groups[i].backends[0]);
    }
  }

  lemma {:induction false} GroupedPermuted(placed: seq<Placed>, groups: seq<Group>, sorted: seq<Group>,
                                           ungrouped: seq<Backend>)
    requires Grouped(placed, groups, ungrouped) && Sorting.Ascending(sorted, CwdOf)
    requires forall g :: g in sorted <==> g in groups
    ensures Grouped(placed, sorted, ungrouped)
  {
    forall i, j | 0 <= i < j < |sorted| ensures sorted[i].folder != sorted[j].folder {
      Sorting.BeforeTotal(sorted[i].cwd, sorted[j].cwd);
      assert sorted[i] in groups && sorted[j] in groups;
    }
    forall f | f in Shared(placed) ensures exists i :: 0 <= i < |sorted| && sorted[i].folder == f {
      var i :| 0 <= i < |groups| && groups[i].folder == f;
      assert groups[i] in sorted;
    }
    forall i | 0 <= i < |sorted|
      ensures sorted[i].folder in Shared(placed) && sorted[i].backends == InFolder(placed, sorted[i].folder)
    {
      assert sorted[i] in groups;
    }
  }

  /** The table of a batch: of several backends of one name the last is kept. */
  function Table(batch: seq<Backend>): map<string, Backend> {
    if batch == [] then map[]
    else Table(batch[..|batch| - 1])[NameOf(batch[|batch| - 1]) := batch[|batch| - 1]]
  }

  ghost predicate Keyed(backends: map<string, Backend>) {
    forall k :: k in backends ==> NameOf(backends[k]) == k
  }

  class DashboardServer {
    var backends: map<string, Backend>
    const basePaths: seq<string>

    constructor (basePaths: seq<string>)
      ensures backends == map[] && this.basePaths == basePaths
    { backends, this.basePaths := map[], basePaths; }

    ghost predicate Valid()
      reads this
    { Keyed(backends) }

    method UpdateBackends(batch: seq<Backend>)
      modifies this
      ensures Valid() && backends == Table(batch)
    {
      backends := map[];
      for n := 0 to |batch|
        invariant Valid() && backends == Table(batch[..n])
      {
        assert batch[..n + 1][..n] == batch[..n];
        backends := backends[NameOf(batch[n]) := batch[n]];
      }
      assert batch[..|batch|] == batch;
    }

    method ServeDashboard(walk: seq<string>) returns (page: Page)
      requires Valid() && Enumerates(walk, backends.Keys)
      ensures IsPage(Listed(backends, walk), basePaths, page)
    {
      var listed := Listed(backends, walk);
      assert Sorting.Distinct(listed, NameOf);
      var docker, processes, wellKnown, otherDisabled := Shelve(listed);
      var groups, ungrouped := GroupProcesses(PlacedAll(processes, basePaths));
      GroupFolders(processes, basePaths, groups, ungrouped);
      Sorting.SortedSame(groups, CwdOf);
      GroupedPermuted(PlacedAll(processes, basePaths), groups, Sorting.Sorted(groups, CwdOf), ungrouped);
      page := Page(docker, Sorting.Sorted(groups, CwdOf), ungrouped, wellKnown, otherDisabled);
      assert ProcessesShown(listed, basePaths, processes, page.groups, page.ungrouped);
    }
  }
}
