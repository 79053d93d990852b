/** The registry and the mappings in the store over runs in which both change: what
    the table shows is what the store held at the latest process report. */
module MappingRuns {
  import opened Basics
  import opened Discovered
  import opened Registry
  import opened RegistryRuns
  import ChangeDetection
  import Decimal
  import EndToEnd
  import Names
  import RegistryLimits
  import ScanResults
  import WatcherRuns

  datatype Action =
    | Report(source: Source, services: seq<Service>)
    | Late(service: Service)
    | StoreMapping(m: Mapping)
    | DeleteMapping(cwd: string)

  datatype World = World(registry: State, mappings: map<string, Mapping>)

  /** A report is resolved with the mappings in the store; a change of the store
      publishes the table again and changes nothing in it. */
  function After(w: World, a: Action): World {
    match a
    case Report(source, services) => w.(registry := Update(w.registry, source, services, w.mappings))
    case Late(svc) => w.(registry := Registry.Late(w.registry, svc))
    case StoreMapping(m) => w.(mappings := w.mappings[m.cwd := m])
    case DeleteMapping(cwd) => w.(mappings := w.mappings - {cwd})
  }

  /** The world after a run that starts with an empty registry and the mappings
      that were stored before. */
  function Play(stored: map<string, Mapping>, actions: seq<Action>): World {
    if actions == [] then World(EMPTY, stored)
    else After(Play(stored, actions[..|actions| - 1]), actions[|actions| - 1])
  }

  // ---- The dashboard's handlers -------------------------------------------------------------

  ghost function WorldOf(registry: RouteRegistry): World
    reads registry, registry.store
  {
    World(registry.View(), registry.Mappings())
  }

  /** A mapping is stored if it is complete and its subdomain is a label; the routes
      are then published again. */
  method AddSubdomainMapping(registry: RouteRegistry, m: Mapping, written: bool)
    returns (ok: bool, routes: seq<Route>, backends: seq<Backend>)
    modifies registry.store
    ensures ok <==> registry.store != null && m.subdomain != "" && m.cwd != "" && m.folderGroup != ""
                    && Names.Label(m.subdomain) && |m.subdomain| <= 63 && written
    ensures WorldOf(registry) == if ok then After(old(WorldOf(registry)), StoreMapping(m)) else old(WorldOf(registry))
    ensures ok ==> Published(WorldOf(registry).registry, routes, backends)
  {
    ok, routes, backends := false, [], [];
    if registry.store == null || m.subdomain == "" || m.cwd == "" || m.folderGroup == "" {
      return;
    }
    var valid := Names.IsValidSubdomain(m.subdomain);
    if !valid {
      return;
    }
    ok := registry.store.AddSubdomainMapping(m, written);
    if ok {
      routes, backends := registry.RefreshRoutes();
    }
  }

  method RemoveSubdomainMapping(registry: RouteRegistry, cwd: string, deleted: bool)
    returns (ok: bool, routes: seq<Route>, backends: seq<Backend>)
    modifies registry.store
    ensures ok <==> registry.store != null && cwd != "" && deleted
    ensures WorldOf(registry)
         == if ok then After(old(WorldOf(registry)), DeleteMapping(cwd)) else old(WorldOf(registry))
    ensures ok ==> Published(WorldOf(registry).registry, routes, backends)
  {
    ok, routes, backends := false, [], [];
    if registry.store == null || cwd == "" {
      return;
    }
    registry.store.RemoveSubdomainMapping(cwd, deleted);
    if deleted {
      ok := true;
      routes, backends := registry.RefreshRoutes();
    }
  }

  // ---- The registry's own run ---------------------------------------------------------------

  /** What the registry sees of a run: each report with the mappings of its time. */
  function Seen(stored: map<string, Mapping>, actions: seq<Action>): seq<Event> {
    if actions == [] then []
    else
      var init, a := actions[..|actions| - 1], actions[|actions| - 1];
      match a
      case Report(source, services) => Seen(stored, init) + [Reports(source, services, Play(stored, init).mappings)]
      case Late(svc) => Seen(stored, init) + [Single(svc)]
      case _ => Seen(stored, init)
  }

  lemma {:induction false} PlayIsRun(stored: map<string, Mapping>, actions: seq<Action>)
    ensures Play(stored, actions).registry == Run(Seen(stored, actions))
  {
    if actions != [] {
      var init, a := actions[..|actions| - 1], actions[|actions| - 1];
      PlayIsRun(stored, init);
      var before := Seen(stored, init);
      match a
      case Report(source, services) => RunAppend(before, Reports(source, services, Play(stored, init).mappings));
      case Late(svc) => RunAppend(before, Single(svc));
      case _ =>
    }
  }

  /** Reports are of their own source; single updates are containers. */
  ghost predicate Orderly(actions: seq<Action>) {
    && (forall a :: a in actions && a.Report? ==> Sourced(a.services, a.source))
    && (forall a :: a in actions && a.Late? ==> a.service.source == Docker)
  }

  lemma {:induction false} SeenOrderly(stored: map<string, Mapping>, actions: seq<Action>)
    requires Orderly(actions)
    ensures WellFormed(Seen(stored, actions)) && SinglesAreContainers(Seen(stored, actions))
  {
    if actions != [] {
      var init, a := actions[..|actions| - 1], actions[|actions| - 1];
      assert a in actions && forall x :: x in init ==> x in actions;
      SeenOrderly(stored, init);
    }
  }

  // ---- The table against the store ------------------------------------------------------------

  /** The mappings when the latest process report was resolved. */
  function Resolving(stored: map<string, Mapping>, actions: seq<Action>): map<string, Mapping> {
    LatestMappings(Seen(stored, actions))
  }

  /** Both give the directory the same name, or neither gives it one. */
  predicate SameName(a: map<string, Mapping>, b: map<string, Mapping>, cwd: string) {
    && (cwd in a <==> cwd in b)
    && (cwd in a ==> MappedName(a[cwd]) == MappedName(b[cwd]))
  }

  /** In every reachable state a stored process of a shared folder has the name and
      the flags that the store now asks for if and only if its directory has the
      mapped name, or none, that it had at the latest process report. */
  lemma {:induction false} AgreesWithStoreIff(stored: map<string, Mapping>, actions: seq<Action>, name: string)
    requires Orderly(actions) && name in Play(stored, actions).registry.services
    requires var entry := Play(stored, actions).registry.services[name];
             entry.source == Process && GroupName(entry, Play(stored, actions).registry.groups) != ""
    ensures var w := Play(stored, actions);
            Disciplined(w.registry.services[name], w.registry.groups, w.mappings) <==>
              SameName(Resolving(stored, actions), w.mappings, w.registry.services[name].process.value.cwd)
  {
    var events := Seen(stored, actions);
    PlayIsRun(stored, actions);
    SeenOrderly(stored, actions);
    FolderDiscipline(events, name);
  }

  /** The directory's mapping was neither stored nor deleted since the latest
      process report. */
  ghost predicate Untouched(actions: seq<Action>, cwd: string) {
    actions != []
    && var a := actions[|actions| - 1];
       match a
       case Report(source, _) => source == Process || Untouched(actions[..|actions| - 1], cwd)
       case Late(_) => Untouched(actions[..|actions| - 1], cwd)
       case StoreMapping(m) => m.cwd != cwd && Untouched(actions[..|actions| - 1], cwd)
       case DeleteMapping(other) => other != cwd && Untouched(actions[..|actions| - 1], cwd)
  }

  lemma {:induction false} UntouchedAgrees(stored: map<string, Mapping>, actions: seq<Action>, cwd: string)
    requires Untouched(actions, cwd)
    ensures SameName(Resolving(stored, actions), Play(stored, actions).mappings, cwd)
  {
    var init, a := actions[..|actions| - 1], actions[|actions| - 1];
    var before := Seen(stored, init);
    if a.Report? {
      var e := Reports(a.source, a.services, Play(stored, init).mappings);
      LatestMappingsMore(before, e);
      if a.source != Process {
        UntouchedAgrees(stored, init, cwd);
      }
    } else {
      UntouchedAgrees(stored, init, cwd);
      if a.Late? {
        LatestMappingsMore(before, Single(a.service));
      }
    }
  }

  lemma {:induction false} LatestMappingsMore(events: seq<Event>, e: Event)
    ensures LatestMappings(events + [e])
         == if e.Reports? && e.source == Process then e.mappings else LatestMappings(events)
  {
    assert (events + [e])[..|events|] == events;
  }

  // ---- A mapping that has no effect ------------------------------------------------------------

  lemma {:induction false} PlayOfTwo(stored: map<string, Mapping>, a: Action, b: Action)
    ensures Play(stored, [a, b]) == After(After(World(EMPTY, stored), a), b)
  {
    assert [a, b][..1] == [a] && [a][..0] == [];
    assert Play(stored, [a]) == After(Play(stored, []), a);
  }

  /** Two processes of one folder are reported; then the first is mapped, as the
      captive portal asks. Its route stays disabled under its PID. */
  lemma {:induction false} MappedLaterStaysDisabled(p: Service, q: Service, m: Mapping, routes: seq<Route>,
                                                    backends: seq<Backend>)
    returns (i: nat)
    requires p.source == q.source == Process && p.process.Some? && q.process.Some?
    requires FolderOf(p) == FolderOf(q) != "" && p.process.value.pid != q.process.value.pid
    requires p.process.value.cwd == m.cwd
    requires Published(Play(map[], [Report(Process, [p, q]), StoreMapping(m)]).registry, routes, backends)
    ensures m.cwd in Play(map[], [Report(Process, [p, q]), StoreMapping(m)]).mappings
    ensures i < |backends| && backends[i].cwd == m.cwd && backends[i].disabled
    ensures backends[i].route.subdomain == PidName(p.process.value.pid)
  {
    PlayOfTwo(map[], Report(Process, [p, q]), StoreMapping(m));
    var st := Update(EMPTY, Process, [p, q], map[]);
    i := PidPublished(p, q, st, routes, backends);
  }

  lemma {:induction false} PidPublished(p: Service, q: Service, st: State, routes: seq<Route>, backends: seq<Backend>)
    returns (i: nat)
    requires p.source == q.source == Process && p.process.Some? && q.process.Some?
    requires FolderOf(p) == FolderOf(q) != "" && p.process.value.pid != q.process.value.pid
    requires st == Update(EMPTY, Process, [p, q], map[]) && Published(st, routes, backends)
    ensures i < |backends| && backends[i].cwd == p.process.value.cwd && backends[i].disabled
    ensures backends[i].route.subdomain == PidName(p.process.value.pid)
  {
    var name := PidName(p.process.value.pid);
    PidStored(p, q);
    i := PublishedAt(st, routes, backends, name);
  }

  /** The place at which a stored service is published. */
  lemma {:induction false} PublishedAt(st: State, routes: seq<Route>, backends: seq<Backend>, name: string)
    returns (i: nat)
    requires Published(st, routes, backends) && name in st.services
    ensures i < |backends| && backends[i] == ServiceBackend(st.services[name], st.groups)
  {
    var folders, names :| Enumerates(folders, SharedFolders(st.groups))
                       && Enumerates(names, st.services.Keys)
                       && backends == Table(st, folders, names);
    assert name in names;
    i := TableAt(st, folders, names, name);
  }

  lemma {:induction false} TableAt(st: State, folders: seq<string>, names: seq<string>, name: string)
    returns (i: nat)
    requires name in names && forall n :: n in names ==> n in st.services
    ensures i < |Table(st, folders, names)|
    ensures Table(st, folders, names)[i] == ServiceBackend(st.services[name], st.groups)
  {
    var k := PlaceOf(names, name);
    i := 1 + |folders| + k;
    assert Table(st, folders, names)[1 + |folders| + k] == ServiceBackend(st.services[names[k]], st.groups);
  }

  lemma {:induction false} PidStored(p: Service, q: Service)
    requires p.source == q.source == Process && p.process.Some? && q.process.Some?
    requires FolderOf(p) == FolderOf(q) != "" && p.process.value.pid != q.process.value.pid
    ensures var name, st := PidName(p.process.value.pid), Update(EMPTY, Process, [p, q], map[]);
            && name in st.services && st.services[name] == Resolved(p, GroupsOf([p, q]), map[])
            && st.services[name].subdomain == name
            && st.services[name].process.Some? && st.services[name].process.value.disabled
            && st.services[name].process.value.cwd == p.process.value.cwd
  {
    var name, groups := PidName(p.process.value.pid), GroupsOf([p, q]);
    RegistryLimits.TwoInFolder(p, q);
    var claims := Claims([p, q], groups, map[]);
    assert claims == [Resolved(p, groups, map[]), Resolved(q, groups, map[])];
    PidNamesDiffer(p.process.value.pid, q.process.value.pid);
    assert claims[..1] == [claims[0]];
    assert LastNamed(claims[..1], name) == Some(claims[0]);
    assert LastNamed(claims, name) == Some(claims[0]);
    UpdateAtName(EMPTY, Process, [p, q], map[], name);
  }

  lemma {:induction false} PidNamesDiffer(a: int, b: int)
    requires a != b
    ensures PidName(a) != PidName(b)
  {
    if PidName(a) == PidName(b) {
      assert PidName(a)[4..] == Decimal.Print(a) && PidName(b)[4..] == Decimal.Print(b);
      Decimal.PrintInjective(a, b);
    }
  }

  // ---- ... until a scan differs -----------------------------------------------------------------

  /** What one scan makes the registry see: nothing unless it is announced. */
  function Announced(current: map<int, Service>, services: seq<Service>): seq<Action> {
    if ChangeDetection.Unchanged(services, current) then []
    else [Report(Process, ScanResults.BySource(services, Process)),
          Report(WellKnown, ScanResults.BySource(services, WellKnown))]
  }

  /** The actions that further scans lead to, the watcher having seen `watched`. */
  function FromScans(watched: seq<WatcherRuns.Event>, scans: seq<seq<Service>>): seq<Action>
    decreases |scans|
  {
    if scans == [] then []
    else Announced(WatcherRuns.Run(watched), scans[0])
         + FromScans(watched + [WatcherRuns.Scanned(scans[0])], scans[1..])
  }

  /** As long as scans list the same processes on the same ports, each once, a
      mapping stored meanwhile changes nothing in the table. */
  lemma {:induction false} EqualScansChangeNothing(watched: seq<WatcherRuns.Event>, scans: seq<seq<Service>>)
    requires WatcherRuns.Scans(watched)
    requires forall s :: s in scans ==> WatcherRuns.IsScan(s) && ChangeDetection.DistinctPids(s)
    requires forall s :: s in scans ==>
               ChangeDetection.PortMap(ChangeDetection.ByPid(s))
               == ChangeDetection.PortMap(ChangeDetection.ByPid(WatcherRuns.LastScan(watched)))
    ensures FromScans(watched, scans) == []
    decreases |scans|
  {
    if scans != [] {
      assert scans[0] in scans;
      WatcherRuns.AnnouncedIff(watched, scans[0]);
      var more := watched + [WatcherRuns.Scanned(scans[0])];
      assert more[..|watched|] == watched;
      assert forall s :: s in scans[1..] ==> s in scans;
      EqualScansChangeNothing(more, scans[1..]);
    }
  }

  // ---- What the store holds ---------------------------------------------------------------------

  /** Every mapping that reports are resolved with has a label for a subdomain, if
      those stored before have and the dashboard alone stores more. */
  lemma {:induction false} StoreHoldsLabels(stored: map<string, Mapping>, actions: seq<Action>)
    requires EndToEnd.Accepted(stored)
    requires forall a :: a in actions && a.StoreMapping? ==> Names.Label(a.m.subdomain)
    ensures EndToEnd.Accepted(Play(stored, actions).mappings) && EndToEnd.Accepted(Resolving(stored, actions))
  {
    if actions != [] {
      var init, a := actions[..|actions| - 1], actions[|actions| - 1];
      assert a in actions && forall x :: x in init ==> x in actions;
      StoreHoldsLabels(stored, init);
      var before := Seen(stored, init);
      if a.Report? {
        LatestMappingsMore(before, Reports(a.source, a.services, Play(stored, init).mappings));
      } else if a.Late? {
        LatestMappingsMore(before, Single(a.service));
      }
    }
  }
}
