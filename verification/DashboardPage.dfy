/** What a dashboard page means: nothing is lost, groups are whole, and the page
    does not depend on the order in which the table is walked. */
module DashboardPage {
  import opened Basics
  import opened Discovered
  import opened Dashboard
  import Registry
  import RegistryRuns
  import Sorting

  // ---- Conservation -----------------------------------------------------------------------

  /** The shelves share out the backends: each one is on exactly one of them. */
  lemma {:induction false} ShelvesShareOut(listed: seq<Backend>)
    ensures multiset(listed) == multiset(On(listed, Containers)) + multiset(On(listed, Running) + On(listed, Stopped))
                                + multiset(On(listed, WellKnowns)) + multiset(On(listed, OtherDisabled))
  {
    forall b ensures multiset(listed)[b] ==
      (multiset(On(listed, Containers)) + multiset(On(listed, Running) + On(listed, Stopped))
       + multiset(On(listed, WellKnowns)) + multiset(On(listed, OtherDisabled)))[b]
    {
      OnCount(listed, Containers, b);
      OnCount(listed, Running, b);
      OnCount(listed, Stopped, b);
      OnCount(listed, WellKnowns, b);
      OnCount(listed, OtherDisabled, b);
    }
  }

  function Unplaced(placed: seq<Placed>): seq<Backend> {
    seq(|placed|, i requires 0 <= i < |placed| => placed[i].backend)
  }

  lemma {:induction false} InOrOut(placed: seq<Placed>, folders: set<string>)
    ensures multiset(Unplaced(placed)) ==
              multiset(InFolders(placed, folders, true)) + multiset(InFolders(placed, folders, false))
  {
    if placed != [] {
      var init, last := placed[..|placed| - 1], placed[|placed| - 1];
      InOrOut(init, folders);
      UnplacedMore(placed);
    }
  }

  lemma {:induction false} UnplacedMore(placed: seq<Placed>)
    requires placed != []
    ensures Unplaced(placed) == Unplaced(placed[..|placed| - 1]) + [placed[|placed| - 1].backend]
  {}

  lemma {:induction false} OneMoreFolder(placed: seq<Placed>, folders: set<string>, f: string)
    requires f !in folders
    ensures multiset(InFolders(placed, folders + {f}, true)) ==
              multiset(InFolders(placed, folders, true)) + multiset(InFolder(placed, f))
  {
    if placed != [] {
      OneMoreFolder(placed[..|placed| - 1], folders, f);
    }
  }

  lemma {:induction false} NoFolders(placed: seq<Placed>)
    ensures InFolders(placed, {}, true) == []
  {
    if placed != [] { NoFolders(placed[..|placed| - 1]); }
  }

  function FoldersOf(groups: seq<Group>): set<string> { set g | g in groups :: g.folder }

  lemma {:induction false} GroupsHold(placed: seq<Placed>, groups: seq<Group>)
    requires forall i, j :: 0 <= i < j < |groups| ==> groups[i].folder != groups[j].folder
    requires forall i :: 0 <= i < |groups| ==> groups[i].backends == InFolder(placed, groups[i].folder)
    ensures BackendsOf(groups) == multiset(InFolders(placed, FoldersOf(groups), true))
  {
    if groups == [] {
      NoFolders(placed);
      assert FoldersOf(groups) == {};
    } else {
      var init, last := groups[..|groups| - 1], groups[|groups| - 1];
      var folders := FoldersOf(init);
      GroupsHold(placed, init);
      FoldersMore(groups);
      assert last.folder !in folders;
      OneMoreFolder(placed, folders, last.folder);
    }
  }

  lemma {:induction false} FoldersMore(groups: seq<Group>)
    requires groups != []
    ensures FoldersOf(groups) == FoldersOf(groups[..|groups| - 1]) + {groups[|groups| - 1].folder}
  {
    assert groups == groups[..|groups| - 1] + [groups[|groups| - 1]];
  }

  lemma {:induction false} GroupsConserve(placed: seq<Placed>, groups: seq<Group>, ungrouped: seq<Backend>)
    requires Grouped(placed, groups, ungrouped)
    ensures multiset(Unplaced(placed)) == BackendsOf(groups) + multiset(ungrouped)
  {
    GroupsHold(placed, groups);
    assert FoldersOf(groups) == Shared(placed) by {
      forall f | f in Shared(placed) ensures f in FoldersOf(groups) {
        var i :| 0 <= i < |groups| && groups[i].folder == f;
        assert groups[i] in groups;
      }
    }
    InOrOut(placed, Shared(placed));
  }

  /** No backend is lost or listed twice: the parts of the page add up to the table. */
  lemma {:induction false} PageConserves(listed: seq<Backend>, basePaths: seq<string>, page: Page)
    requires IsPage(listed, basePaths, page)
    ensures multiset(listed) == multiset(page.docker) + BackendsOf(page.groups) + multiset(page.ungrouped)
                                + multiset(page.wellKnown) + multiset(page.otherDisabled)
  {
    var processes :| ProcessesShown(listed, basePaths, processes, page.groups, page.ungrouped);
    ShelvesShareOut(listed);
    ProcessesConserve(listed, basePaths, processes, page.groups, page.ungrouped);
  }

  lemma {:induction false} ProcessesConserve(listed: seq<Backend>, basePaths: seq<string>, processes: seq<Backend>,
                                             groups: seq<Group>, ungrouped: seq<Backend>)
    requires ProcessesShown(listed, basePaths, processes, groups, ungrouped)
    ensures multiset(On(listed, Running) + On(listed, Stopped)) == BackendsOf(groups) + multiset(ungrouped)
  {
    var placed := PlacedAll(processes, basePaths);
    GroupsConserve(placed, groups, ungrouped);
    assert Unplaced(placed) == processes;
  }

  // ---- Groups -----------------------------------------------------------------------------

  predicate IsProcess(b: Backend) { ShelfOf(b) == Running || ShelfOf(b) == Stopped }

  lemma {:induction false} ProcessMembers(listed: seq<Backend>, processes: seq<Backend>)
    requires multiset(processes) == multiset(On(listed, Running) + On(listed, Stopped))
    ensures forall b :: b in processes <==> b in listed && IsProcess(b)
  {
    OnMembers(listed, Running);
    OnMembers(listed, Stopped);
    forall b ensures b in processes <==> b in listed && IsProcess(b) {
      assert b in processes <==> b in multiset(On(listed, Running) + On(listed, Stopped));
    }
  }

  lemma {:induction false} InFoldersMembers(processes: seq<Backend>, basePaths: seq<string>, fs: set<string>,
                                            inside: bool)
    ensures forall b :: b in InFolders(PlacedAll(processes, basePaths), fs, inside) <==>
              b in processes && (DisplayFolder(b.cwd, basePaths) in fs) == inside
  {
    if processes != [] {
      var init, last := processes[..|processes| - 1], processes[|processes| - 1];
      InFoldersMembers(init, basePaths, fs, inside);
      assert PlacedAll(processes, basePaths)[..|init|] == PlacedAll(init, basePaths);
      assert processes == init + [last];
    }
  }

  lemma {:induction false} InFolderDistinct(processes: seq<Backend>, basePaths: seq<string>, f: string)
    requires Sorting.Distinct(processes, NameOf)
    ensures Sorting.Distinct(InFolder(PlacedAll(processes, basePaths), f), NameOf)
  {
    if processes != [] {
      var init, last := processes[..|processes| - 1], processes[|processes| - 1];
      InFolderDistinct(init, basePaths, f);
      InFoldersMembers(init, basePaths, {f}, true);
      assert PlacedAll(processes, basePaths)[..|init|] == PlacedAll(init, basePaths);
      assert forall b :: b in init ==> NameOf(b) != NameOf(last);
    }
  }

  /** Another process shows the same folder. */
  ghost predicate HasNeighbour(listed: seq<Backend>, basePaths: seq<string>, b: Backend) {
    exists other :: other in listed && IsProcess(other) && other != b
                    && DisplayFolder(other.cwd, basePaths) == DisplayFolder(b.cwd, basePaths)
  }

  lemma {:induction false} SharedIffNeighbour(listed: seq<Backend>, basePaths: seq<string>,
                                              processes: seq<Backend>, b: Backend)
    requires ShownInOrder(processes, On(listed, Running) + On(listed, Stopped)) && b in processes
    ensures DisplayFolder(b.cwd, basePaths) in Shared(PlacedAll(processes, basePaths)) <==>
              DisplayFolder(b.cwd, basePaths) != "" && HasNeighbour(listed, basePaths, b)
  {
    var placed, f := PlacedAll(processes, basePaths), DisplayFolder(b.cwd, basePaths);
    var i :| 0 <= i < |processes| && processes[i] == b;
    assert placed[i] in placed;
    var members := InFolder(placed, f);
    ProcessMembers(listed, processes);
    InFoldersMembers(processes, basePaths, {f}, true);
    NamesDistinct(processes);
    InFolderDistinct(processes, basePaths, f);
    TwoMembers(members, b);
    assert HasNeighbour(listed, basePaths, b) <==> exists other :: other in members && other != b;
  }

  lemma {:induction false} TwoMembers(members: seq<Backend>, b: Backend)
    requires b in members && Sorting.Distinct(members, NameOf)
    ensures |members| > 1 <==> exists other :: other in members && other != b
  {
    if |members| > 1 {
      assert NameOf(members[0]) != NameOf(members[1]);
      assert members[0] in members && members[1] in members;
    }
  }

  lemma {:induction false} NamesDistinct(processes: seq<Backend>)
    requires Sorting.Ascending(processes, NameOf)
    ensures Sorting.Distinct(processes, NameOf)
  {
    forall i, j | 0 <= i < j < |processes| ensures NameOf(processes[i]) != NameOf(processes[j]) {
      Sorting.BeforeTotal(NameOf(processes[i]), NameOf(processes[j]));
    }
  }

  lemma {:induction false} GroupMembers(listed: seq<Backend>, basePaths: seq<string>, processes: seq<Backend>,
                                        page: Page, g: Group)
    requires ProcessesShown(listed, basePaths, processes, page.groups, page.ungrouped) && g in page.groups
    ensures |g.backends| >= 2
    ensures forall b :: b in g.backends <==> b in listed && IsProcess(b) && DisplayFolder(b.cwd, basePaths) == g.folder
  {
    var placed := PlacedAll(processes, basePaths);
    assert g.folder in Shared(placed) && g.backends == InFolder(placed, g.folder);
    InFoldersMembers(processes, basePaths, {g.folder}, true);
    ProcessMembers(listed, processes);
  }

  /** Groups have distinct folders and at least two members; the members are all
      processes of that folder. */
  lemma {:induction false} GroupsMean(listed: seq<Backend>, basePaths: seq<string>, page: Page)
    requires IsPage(listed, basePaths, page)
    ensures forall i, j :: 0 <= i < j < |page.groups| ==> page.groups[i].folder != page.groups[j].folder
    ensures forall g :: g in page.groups ==> |g.backends| >= 2
    ensures forall g, b :: g in page.groups ==>
              (b in g.backends <==> b in listed && IsProcess(b) && DisplayFolder(b.cwd, basePaths) == g.folder)
  {
    var processes :| ProcessesShown(listed, basePaths, processes, page.groups, page.ungrouped);
    forall g | g in page.groups
      ensures |g.backends| >= 2
      ensures forall b :: b in g.backends <==>
                b in listed && IsProcess(b) && DisplayFolder(b.cwd, basePaths) == g.folder
    {
      GroupMembers(listed, basePaths, processes, page, g);
    }
  }

  /** A process is in no group when it shows no folder or is the only one to show it. */
  lemma {:induction false} UngroupedIff(listed: seq<Backend>, basePaths: seq<string>, page: Page, b: Backend)
    requires IsPage(listed, basePaths, page)
    ensures b in page.ungrouped <==>
              && b in listed && IsProcess(b)
              && (DisplayFolder(b.cwd, basePaths) == "" || !HasNeighbour(listed, basePaths, b))
  {
    var processes :| ProcessesShown(listed, basePaths, processes, page.groups, page.ungrouped);
    ProcessMembers(listed, processes);
    InFoldersMembers(processes, basePaths, Shared(PlacedAll(processes, basePaths)), false);
    if b in processes {
      SharedIffNeighbour(listed, basePaths, processes, b);
    }
  }

  // ---- Order ------------------------------------------------------------------------------

  lemma {:induction false} ShownSame(s: seq<Backend>, t: seq<Backend>, from: seq<Backend>, from': seq<Backend>)
    requires ShownInOrder(s, from) && ShownInOrder(t, from') && multiset(from) == multiset(from')
    ensures s == t
  {
    forall x ensures x in s <==> x in t {
      assert x in s <==> x in multiset(s);
    }
    Sorting.AscendingUnique(s, t, NameOf);
  }

  lemma {:induction false} GroupsSame(placed: seq<Placed>, a: seq<Group>, b: seq<Group>, ua: seq<Backend>,
                                      ub: seq<Backend>)
    requires Grouped(placed, a, ua) && Grouped(placed, b, ub)
    requires Sorting.Ascending(a, CwdOf) && Sorting.Ascending(b, CwdOf)
    requires (forall g :: g in a ==> Headed(g)) && (forall g :: g in b ==> Headed(g))
    ensures a == b && ua == ub
  {
    GroupsWithin(placed, a, b, ua, ub);
    GroupsWithin(placed, b, a, ub, ua);
    Sorting.AscendingUnique(a, b, CwdOf);
  }

  lemma {:induction false} GroupsWithin(placed: seq<Placed>, a: seq<Group>, b: seq<Group>, ua: seq<Backend>,
                                        ub: seq<Backend>)
    requires Grouped(placed, a, ua) && Grouped(placed, b, ub)
    requires (forall g :: g in a ==> Headed(g)) && (forall g :: g in b ==> Headed(g))
    ensures forall g :: g in a ==> g in b
  {
    forall g | g in a ensures g in b {
      assert g.folder in Shared(placed);
      var i :| 0 <= i < |b| && b[i].folder == g.folder;
      assert b[i] in b && Headed(b[i]) && Headed(g);
      assert b[i] == g;
    }
  }

  /** The page is the same whatever the order in which the table is walked. */
  lemma {:induction false} PageIndependentOfWalk(backends: map<string, Backend>, walk: seq<string>, walk': seq<string>,
                              basePaths: seq<string>, page: Page, page': Page)
    requires Keyed(backends) && Enumerates(walk, backends.Keys) && Enumerates(walk', backends.Keys)
    requires IsPage(Listed(backends, walk), basePaths, page) && IsPage(Listed(backends, walk'), basePaths, page')
    ensures page == page'
  {
    var l, l' := Listed(backends, walk), Listed(backends, walk');
    ListedSame(backends, walk, walk');
    PagesSame(l, l', basePaths, page, page');
  }

  lemma {:induction false} PagesSame(l: seq<Backend>, l': seq<Backend>, basePaths: seq<string>, page: Page, page': Page)
    requires multiset(l) == multiset(l') && IsPage(l, basePaths, page) && IsPage(l', basePaths, page')
    ensures page == page'
  {
    ShelfSame(l, l', Containers, page.docker, page'.docker);
    ShelfSame(l, l', WellKnowns, page.wellKnown, page'.wellKnown);
    ShelfSame(l, l', OtherDisabled, page.otherDisabled, page'.otherDisabled);
    ProcessesSame(l, l', basePaths, page, page');
  }

  lemma {:induction false} ShelfSame(l: seq<Backend>, l': seq<Backend>, shelf: Shelf,
                                     shown: seq<Backend>, shown': seq<Backend>)
    requires multiset(l) == multiset(l')
    requires ShownInOrder(shown, On(l, shelf)) && ShownInOrder(shown', On(l', shelf))
    ensures shown == shown'
  {
    OnPermuted(l, l', shelf);
    ShownSame(shown, shown', On(l, shelf), On(l', shelf));
  }

  lemma {:induction false} ProcessesSame(l: seq<Backend>, l': seq<Backend>, basePaths: seq<string>, page: Page,
                                         page': Page)
    requires IsPage(l, basePaths, page) && IsPage(l', basePaths, page')
    requires multiset(l) == multiset(l')
    ensures page.groups == page'.groups && page.ungrouped == page'.ungrouped
  {
    var p :| ProcessesShown(l, basePaths, p, page.groups, page.ungrouped);
    var p' :| ProcessesShown(l', basePaths, p', page'.groups, page'.ungrouped);
    OnPermuted(l, l', Running);
    OnPermuted(l, l', Stopped);
    ShownSame(p, p', On(l, Running) + On(l, Stopped), On(l', Running) + On(l', Stopped));
    GroupsSame(PlacedAll(p, basePaths), page.groups, page'.groups, page.ungrouped, page'.ungrouped);
  }

  lemma {:induction false} CountDistinct(s: seq<Backend>, b: Backend)
    requires NoDuplicates(s)
    ensures multiset(s)[b] == if b in s then 1 else 0
  {
    if s != [] {
      var init, last := s[..|s| - 1], s[|s| - 1];
      CountDistinct(init, b);
      assert s == init + [last];
      assert last !in init;
    }
  }

  lemma {:induction false} ListedCount(backends: map<string, Backend>, walk: seq<string>, b: Backend)
    requires Keyed(backends) && Enumerates(walk, backends.Keys)
    ensures multiset(Listed(backends, walk))[b] ==
              if NameOf(b) in backends && backends[NameOf(b)] == b then 1 else 0
  {
    var listed := Listed(backends, walk);
    CountDistinct(listed, b);
    if NameOf(b) in backends && backends[NameOf(b)] == b {
      assert NameOf(b) in walk;
      var i :| 0 <= i < |walk| && walk[i] == NameOf(b);
      assert listed[i] == b;
    }
  }

  lemma {:induction false} ListedSame(backends: map<string, Backend>, walk: seq<string>, walk': seq<string>)
    requires Keyed(backends) && Enumerates(walk, backends.Keys) && Enumerates(walk', backends.Keys)
    ensures multiset(Listed(backends, walk)) == multiset(Listed(backends, walk'))
  {
    forall b ensures multiset(Listed(backends, walk))[b] == multiset(Listed(backends, walk'))[b] {
      ListedCount(backends, walk, b);
      ListedCount(backends, walk', b);
    }
  }

  // ---- The table --------------------------------------------------------------------------

  /** The last backend of a name is the one the table has. */
  lemma {:induction false} TableLast(batch: seq<Backend>, k: string) returns (i: nat)
    requires k in Table(batch)
    ensures i < |batch| && batch[i] == Table(batch)[k] && NameOf(batch[i]) == k
    ensures forall j :: i < j < |batch| ==> NameOf(batch[j]) != k
  {
    i := |batch| - 1;
    if NameOf(batch[i]) != k {
      var init := batch[..i];
      i := TableLast(init, k);
      forall j | i < j < |batch| ensures NameOf(batch[j]) != k {
        assert j < |init| ==> batch[j] == init[j];
      }
    }
  }

  lemma {:induction false} TableHas(batch: seq<Backend>, i: nat)
    requires i < |batch|
    ensures NameOf(batch[i]) in Table(batch)
  {
    if i < |batch| - 1 {
      TableHas(batch[..|batch| - 1], i);
    }
  }

  lemma {:induction false} TableMeans(batch: seq<Backend>, k: string)
    ensures k in Table(batch) <==> exists i :: 0 <= i < |batch| && NameOf(batch[i]) == k
    ensures k in Table(batch) ==> exists i :: 0 <= i < |batch| && batch[i] == Table(batch)[k] && NameOf(batch[i]) == k
                                              && forall j :: i < j < |batch| ==> NameOf(batch[j]) != k
  {
    if k in Table(batch) {
      var i := TableLast(batch, k);
    }
    if i :| 0 <= i < |batch| && NameOf(batch[i]) == k {
      TableHas(batch, i);
    }
  }

  /** The dashboard has all backends of a batch if and only if no two different
      ones carry the same name. */
  lemma {:induction false} TableKeepsAllIff(batch: seq<Backend>)
    ensures (forall i :: 0 <= i < |batch| ==>
               NameOf(batch[i]) in Table(batch) && Table(batch)[NameOf(batch[i])] == batch[i])
       <==> (forall i, j :: 0 <= i < j < |batch| && NameOf(batch[i]) == NameOf(batch[j]) ==> batch[i] == batch[j])
  {
    if forall i, j :: 0 <= i < j < |batch| && NameOf(batch[i]) == NameOf(batch[j]) ==> batch[i] == batch[j] {
      forall i | 0 <= i < |batch|
        ensures NameOf(batch[i]) in Table(batch) && Table(batch)[NameOf(batch[i])] == batch[i]
      {
        InTable(batch, i);
      }
    }
  }

  /** The entry of a backend's name is that backend or a later one of the name. */
  lemma {:induction false} InTable(batch: seq<Backend>, i: nat)
    requires i < |batch|
    ensures NameOf(batch[i]) in Table(batch)
    ensures exists last :: i <= last < |batch| && batch[last] == Table(batch)[NameOf(batch[i])]
                           && NameOf(batch[last]) == NameOf(batch[i])
  {
    TableMeans(batch, NameOf(batch[i]));
  }

  /** Whenever a service is stored under the name of a shared folder, as the
      registry allows, the dashboard loses the folder's backend or the service's. */
  lemma {:induction false} ClashLosesBackend(st: Registry.State, routes: seq<Route>, backends: seq<Backend>,
                                             name: string)
    requires Registry.Published(st, routes, backends) && RegistryRuns.KeyedByName(st.services)
    requires name in st.services && name in Registry.SharedFolders(st.groups)
    ensures name in Table(backends)
    ensures exists i :: 0 <= i < |backends| && NameOf(backends[i]) == name && Table(backends)[name] != backends[i]
  {
    var folders, names :| Enumerates(folders, Registry.SharedFolders(st.groups))
                       && Enumerates(names, st.services.Keys)
                       && backends == Registry.Table(st, folders, names);
    var i, k := TwoOfOneName(st, folders, names, name);
    assert NameOf(backends[i]) == NameOf(backends[k]) == name && backends[i] != backends[k];
    TableMeans(backends, name);
  }

  lemma {:induction false} TwoOfOneName(st: Registry.State, folders: seq<string>, names: seq<string>, name: string)
    returns (i: nat, k: nat)
    requires (forall n :: n in names ==> n in st.services) && RegistryRuns.KeyedByName(st.services)
    requires name in folders && name in names
    ensures var t := Registry.Table(st, folders, names);
            && i < |t| && k < |t| && t[i] != t[k]
            && NameOf(t[i]) == NameOf(t[k]) == name
  {
    var a := PlaceOf(folders, name);
    var b := PlaceOf(names, name);
    i, k := 1 + a, 1 + |folders| + b;
    var t := Registry.Table(st, folders, names);
    RegistryRuns.TableFolderName(st, folders, names, a);
    RegistryRuns.TableServiceName(st, folders, names, b);
    WildcardsDiffer(st, folders, names, a, b);
  }

  lemma {:induction false} WildcardsDiffer(st: Registry.State, folders: seq<string>, names: seq<string>, a: nat, b: nat)
    requires (forall n :: n in names ==> n in st.services) && a < |folders| && b < |names|
    ensures Registry.Table(st, folders, names)[1 + a].route.hasWildcard
    ensures !Registry.Table(st, folders, names)[1 + |folders| + b].route.hasWildcard
  {
    var t := Registry.Table(st, folders, names);
    assert names[b] in names;
    assert t[1 + a] == Registry.PlainBackend(Registry.FolderRoute(folders[a]), Process);
    assert t[1 + |folders| + b] == Registry.ServiceBackend(st.services[names[b]], st.groups);
  }
}
