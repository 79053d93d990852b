/** The route registry: one table from subdomain to service, filled by three
    discovery sources of different priority. */
module Registry {
  import opened Basics
  import opened Discovered
  import opened Decimal
  import ProjectStore

  type Groups = map<string, seq<Service>>

  datatype State = State(services: map<string, Service>, groups: Groups)

  const EMPTY := State(map[], map[])

  function Priority(source: Source): int {
    match source
    case Process => 3
    case Docker => 2
    case WellKnown => 1
    case Other(_) => 0
  }

  // ---- Specification of one update --------------------------------------

  predicate IsFolderGroup(groups: Groups, name: string) {
    name in groups && |groups[name]| >= 2
  }

  function FolderOf(svc: Service): string {
    if svc.process.Some? then svc.process.value.topLevelFolder else ""
  }

  /** The processes of `batch` in folder `folder`, in batch order. */
  function Members(batch: seq<Service>, folder: string): seq<Service> {
    Filter(batch, (svc: Service) => svc.process.Some? && FolderOf(svc) == folder)
  }

  function Folders(batch: seq<Service>): set<string> {
    set svc | svc in batch && FolderOf(svc) != "" :: FolderOf(svc)
  }

  function GroupsOf(batch: seq<Service>): Groups {
    map f | f in Folders(batch) :: Members(batch, f)
  }

  /** `groups` with one more service appended to its folder. */
  function Grown(groups: Groups, svc: Service): Groups {
    var f := FolderOf(svc);
    if f == "" then groups
    else groups[f := (if f in groups then groups[f] else []) + [svc]]
  }

  predicate NeedsMapping(svc: Service, groups: Groups) {
    && svc.process.Some?
    && (|| svc.process.value.needsCustomMapping
        || (FolderOf(svc) != "" && IsFolderGroup(groups, FolderOf(svc))))
  }

  /** The name a service has when no custom mapping is needed. */
  function PlainName(svc: Service): string {
    if svc.process.None? then svc.subdomain
    else match svc.source
      case Process => svc.process.value.topLevelFolder
      case WellKnown =>
        if svc.endpoint.port in WELL_KNOWN_PORTS
        then WELL_KNOWN_PORTS[svc.endpoint.port].subdomain
        else svc.subdomain
      case _ => svc.subdomain
  }

  function MappedName(m: Mapping): string { m.subdomain + "." + m.folderGroup }

  function PidName(pid: int): string { "pid-" + Print(pid) }

  /** The service as it is stored: final name, and the flags that resolving
      writes into its process record. */
  function Resolved(svc: Service, groups: Groups, mappings: map<string, Mapping>): Service {
    if !NeedsMapping(svc, groups) then svc.(subdomain := PlainName(svc))
    else
      var p := svc.process.value;
      if p.cwd in mappings then
        svc.(subdomain := MappedName(mappings[p.cwd]),
             process := Some(p.(disabled := false, needsCustomMapping := false)))
      else
        svc.(subdomain := PidName(p.pid),
             process := Some(p.(disabled := true, needsCustomMapping := true)))
  }

  function Claims(batch: seq<Service>, groups: Groups, mappings: map<string, Mapping>): (claims: seq<Service>)
    ensures |claims| == |batch|
  {
    seq(|batch|, i requires 0 <= i < |batch| => Resolved(batch[i], groups, mappings))
  }

  predicate Blocked(services: map<string, Service>, claim: Service) {
    && claim.subdomain in services
    && Priority(services[claim.subdomain].source) > Priority(claim.source)
  }

  function Insert(services: map<string, Service>, claim: Service): map<string, Service> {
    if Blocked(services, claim) then services else services[claim.subdomain := claim]
  }

  function InsertAll(services: map<string, Service>, claims: seq<Service>): map<string, Service> {
    if claims == [] then services
    else Insert(InsertAll(services, claims[..|claims| - 1]), claims[|claims| - 1])
  }

  lemma {:induction false} InsertNext(services: map<string, Service>, claims: seq<Service>, i: nat)
    requires i < |claims|
    ensures InsertAll(services, claims[..i + 1]) == Insert(InsertAll(services, claims[..i]), claims[i])
  {
    assert claims[..i + 1][..i] == claims[..i];
  }

  function RemoveSource(services: map<string, Service>, source: Source): map<string, Service> {
    map k | k in services && services[k].source != source :: services[k]
  }

  function Regroup(groups: Groups, source: Source, batch: seq<Service>): Groups {
    if source == Process then GroupsOf(batch) else groups
  }

  function Update(st: State, source: Source, batch: seq<Service>, mappings: map<string, Mapping>): State {
    var groups := Regroup(st.groups, source, batch);
    State(InsertAll(RemoveSource(st.services, source), Claims(batch, groups, mappings)), groups)
  }

  function Late(st: State, svc: Service): State {
    st.(services := Insert(st.services, svc))
  }

  // ---- Specification of the published tables -----------------------------

  const ROOT_ROUTE := Route("", DASHBOARD_ENDPOINT, 0, "", false, "", "", "")

  function FolderRoute(folder: string): Route {
    Route(folder, DASHBOARD_ENDPOINT, 0, "", true, folder, "", "")
  }

  function PlainBackend(route: Route, source: Source): Backend {
    Backend(route, 0, "", false, source, "", false, [], false, false, "", "")
  }

  function GroupName(svc: Service, groups: Groups): string {
    if svc.process.Some? && FolderOf(svc) != "" && IsFolderGroup(groups, FolderOf(svc))
    then FolderOf(svc) else ""
  }

  function ServiceRoute(svc: Service, groups: Groups): Route {
    Route(svc.subdomain, svc.endpoint, svc.tcpPort,
          if svc.service.Some? then svc.service.value.protocol else "",
          false, GroupName(svc, groups), "", "")
  }

  function ServiceBackend(svc: Service, groups: Groups): Backend {
    var p := svc.process;
    var d := svc.docker;
    Backend(ServiceRoute(svc, groups),
            if p.Some? then p.value.pid else 0,
            if p.Some? then p.value.cwd else "",
            p.Some? && p.value.disabled,
            svc.source,
            if d.Some? then d.value.id else "",
            d.Some? && !d.value.hasCustomName,
            if d.Some? then d.value.ports else [],
            p.Some? && p.value.needsCustomMapping,
            d.Some?,
            FolderOf(svc),
            if p.Some? then p.value.relativePath else "")
  }

  /** Folders of two or more processes: they get a route of their own. */
  function SharedFolders(groups: Groups): set<string> {
    set f | f in groups && |groups[f]| >= 2
  }

  /** The backends for one iteration order of both maps. */
  ghost function Table(st: State, folders: seq<string>, names: seq<string>): (t: seq<Backend>)
    requires forall k :: k in names ==> k in st.services
    ensures |t| == 1 + |folders| + |names|
    ensures t[0] == PlainBackend(ROOT_ROUTE, WellKnown)
    ensures forall i :: 0 <= i < |folders| ==> t[1 + i] == PlainBackend(FolderRoute(folders[i]), Process)
    ensures forall i :: 0 <= i < |names| ==>
              names[i] in names &&
              t[1 + |folders| + i] == ServiceBackend(st.services[names[i]], st.groups)
  {
    [PlainBackend(ROOT_ROUTE, WellKnown)]
    + seq(|folders|, i requires 0 <= i < |folders| => PlainBackend(FolderRoute(folders[i]), Process))
    + seq(|names|, i requires 0 <= i < |names| =>
            assert names[i] in names; ServiceBackend(st.services[names[i]], st.groups))
  }

  /** `routes` and `backends` are what some iteration order publishes. */
  ghost predicate Published(st: State, routes: seq<Route>, backends: seq<Backend>) {
    && |routes| == |backends|
    && (forall i :: 0 <= i < |routes| ==> routes[i] == backends[i].route)
    && exists folders, names ::
         && Enumerates(folders, SharedFolders(st.groups))
         && Enumerates(names, st.services.Keys)
         && backends == Table(st, folders, names)
  }

  // ---- The registry object ------------------------------------------------

  class RouteRegistry {
    var services: map<string, Service>
    var folderGroups: Groups
    const store: ProjectStore.Store?

    constructor (store: ProjectStore.Store?)
      ensures View() == EMPTY && this.store == store
    {
      services, folderGroups := map[], map[];
      this.store := store;
    }

    ghost function View(): State
      reads this
    { State(services, folderGroups) }

    function Mappings(): map<string, Mapping>
      reads store
    { if store == null then map[] else store.mappings }

    method UpdateServices(source: Source, batch: seq<Service>) returns (routes: seq<Route>, backends: seq<Backend>)
      modifies this
      ensures View() == Update(old(View()), source, batch, Mappings())
      ensures Published(View(), routes, backends)
    {
      RemoveBySource(source);
      if source == Process {
        RebuildFolderGroups(batch);
      }
      ghost var base, groups, mappings := services, folderGroups, Mappings();
      ghost var claims := Claims(batch, groups, mappings);
      for i := 0 to |batch|
        invariant folderGroups == groups && Mappings() == mappings
        invariant services == InsertAll(base, claims[..i])
      {
        var svc := ResolveSubdomain(batch[i]);
        InsertNext(base, claims, i);
        var subdomain := svc.subdomain;
        if subdomain in services && Priority(services[subdomain].source) > Priority(svc.source) {
          continue;
        }
        services := services[subdomain := svc];
      }
      assert claims[..|batch|] == claims;
      routes, backends := GetRoutes();
    }

    method RemoveBySource(source: Source)
      modifies this`services
      ensures services == RemoveSource(old(services), source)
    {
      var rest := services.Keys;
      while rest != {}
        invariant rest <= old(services).Keys
        invariant forall k :: k in services <==>
                    k in old(services) && (k in rest || old(services)[k].source != source)
        invariant forall k :: k in services ==> services[k] == old(services)[k]
      {
        var key :| key in rest;
        rest := rest - {key};
        if services[key].source == source {
          services := services - {key};
        }
      }
    }

    method RebuildFolderGroups(batch: seq<Service>)
      modifies this`folderGroups
      ensures folderGroups == GroupsOf(batch)
    {
      folderGroups := map[];
      for i := 0 to |batch|
        invariant folderGroups == GroupsOf(batch[..i])
      {
        var svc := batch[i];
        assert batch[..i + 1] == batch[..i] + [svc];
        GroupsOfGrow(batch[..i], svc);
        if svc.process.Some? && svc.process.value.topLevelFolder != "" {
          var folder := svc.process.value.topLevelFolder;
          var members := if folder in folderGroups then folderGroups[folder] else [];
          folderGroups := folderGroups[folder := members + [svc]];
        }
      }
      assert batch[..|batch|] == batch;
    }

    method ResolveSubdomain(svc: Service) returns (resolved: Service)
      ensures resolved == Resolved(svc, folderGroups, Mappings())
    {
      var subdomain := svc.subdomain;
      if svc.process.Some? {
        match svc.source {
          case Process =>
            subdomain := svc.process.value.topLevelFolder;
          case WellKnown =>
            if svc.endpoint.port in WELL_KNOWN_PORTS {
              subdomain := WELL_KNOWN_PORTS[svc.endpoint.port].subdomain;
            }
          case Docker =>
          case Other(_) =>
        }
      }
      if !NeedsMapping(svc, folderGroups) {
        return svc.(subdomain := subdomain);
      }
      var p := svc.process.value;
      if store != null {
        var m := store.GetMappingByCwd(p.cwd);
        if m.Some? {
          return svc.(subdomain := MappedName(m.value),
                      process := Some(p.(disabled := false, needsCustomMapping := false)));
        }
      }
      return svc.(subdomain := PidName(p.pid),
                  process := Some(p.(disabled := true, needsCustomMapping := true)));
    }

    method RouteFor(svc: Service) returns (route: Route, backend: Backend)
      ensures route == backend.route
      ensures backend == ServiceBackend(svc, folderGroups)
    {
      route := Route(svc.subdomain, svc.endpoint, svc.tcpPort, "", false, "", "", "");
      if svc.service.Some? {
        route := route.(serviceProtocol := svc.service.value.protocol);
      }
      backend := PlainBackend(route, svc.source);
      if svc.process.Some? {
        var p := svc.process.value;
        backend := backend.(pid := p.pid, cwd := p.cwd, disabled := p.disabled,
                            needsCustomMapping := p.needsCustomMapping,
                            topLevelFolder := p.topLevelFolder, relativePath := p.relativePath);
        if p.topLevelFolder != "" && IsFolderGroup(folderGroups, p.topLevelFolder) {
          route := route.(folderGroup := p.topLevelFolder);
          backend := backend.(route := backend.route.(folderGroup := p.topLevelFolder));
        }
      }
      if svc.docker.Some? {
        var d := svc.docker.value;
        backend := backend.(isDocker := true, dockerContainerId := d.id,
                            dockerHasAutoName := !d.hasCustomName, dockerPorts := d.ports);
      }
    }

    method GetRoutes() returns (routes: seq<Route>, backends: seq<Backend>)
      ensures Published(View(), routes, backends)
    {
      routes := [ROOT_ROUTE];
      backends := [PlainBackend(ROOT_ROUTE, WellKnown)];

      ghost var folders := [];
      var rest := folderGroups.Keys;
      ghost var st := View();
      assert Table(st, [], []) == backends;
      while rest != {}
        invariant rest <= folderGroups.Keys
        invariant Enumerates(folders, SharedFolders(folderGroups) - rest)
        invariant backends == Table(st, folders, [])
        invariant |routes| == |backends| && forall i :: 0 <= i < |routes| ==> routes[i] == backends[i].route
      {
        var folder :| folder in rest;
        rest := rest - {folder};
        if !IsFolderGroup(folderGroups, folder) {
          continue;
        }
        TableFolder(st, folders, folder);
        folders := folders + [folder];
        routes := routes + [FolderRoute(folder)];
        backends := backends + [PlainBackend(FolderRoute(folder), Process)];
      }

      ghost var names := [];
      var keys := services.Keys;
      while keys != {}
        invariant keys <= services.Keys
        invariant Enumerates(names, services.Keys - keys)
        invariant backends == Table(st, folders, names)
        invariant |routes| == |backends| && forall i :: 0 <= i < |routes| ==> routes[i] == backends[i].route
      {
        var key :| key in keys;
        keys := keys - {key};
        var route, backend := RouteFor(services[key]);
        TableSnoc(st, folders, names, key);
        names := names + [key];
        routes := routes + [route];
        backends := backends + [backend];
      }
    }

    /** The registry's entry point for one service found out late. */
    method UpdateService(svc: Service) returns (notified: bool, routes: seq<Route>, backends: seq<Backend>)
      modifies this
      ensures View() == Late(old(View()), svc)
      ensures notified <==> !Blocked(old(services), svc)
      ensures notified ==> Published(View(), routes, backends)
    {
      var subdomain := svc.subdomain;
      if subdomain in services && Priority(services[subdomain].source) > Priority(svc.source) {
        return false, [], [];
      }
      services := services[subdomain := svc];
      routes, backends := GetRoutes();
      notified := true;
    }

    /** Publishes the table as it is; nothing is resolved again. */
    method RefreshRoutes() returns (routes: seq<Route>, backends: seq<Backend>)
      ensures Published(View(), routes, backends)
    {
      routes, backends := GetRoutes();
    }

    method GetFolderGroups() returns (result: Groups)
      ensures result.Keys == SharedFolders(folderGroups)
      ensures forall f :: f in result ==> result[f] == folderGroups[f]
    {
      result := map[];
      var rest := folderGroups.Keys;
      while rest != {}
        invariant rest <= folderGroups.Keys
        invariant result.Keys == SharedFolders(folderGroups) - rest
        invariant forall f :: f in result ==> result[f] == folderGroups[f]
      {
        var k :| k in rest;
        rest := rest - {k};
        if IsFolderGroup(folderGroups, k) {
          result := result[k := folderGroups[k]];
        }
      }
    }
  }

  lemma {:induction false} TableFolder(st: State, folders: seq<string>, folder: string)
    ensures Table(st, folders + [folder], []) == Table(st, folders, []) + [PlainBackend(FolderRoute(folder), Process)]
  {
    var longer := Table(st, folders + [folder], []);
    var t := Table(st, folders, []);
    forall i | 0 <= i < |longer| ensures longer[i] == (t + [PlainBackend(FolderRoute(folder), Process)])[i] {
      if i > 0 { assert longer[1 + (i - 1)] == PlainBackend(FolderRoute((folders + [folder])[i - 1]), Process); }
      if 0 < i < |t| { assert t[1 + (i - 1)] == PlainBackend(FolderRoute(folders[i - 1]), Process); }
    }
  }

  lemma {:induction false} TableSnoc(st: State, folders: seq<string>, names: seq<string>, name: string)
    requires forall k :: k in names + [name] ==> k in st.services
    requires forall k :: k in names ==> k in st.services
    requires name in st.services
    ensures Table(st, folders, names + [name])
         == Table(st, folders, names) + [ServiceBackend(st.services[name], st.groups)]
  {
    var longer := Table(st, folders, names + [name]);
    var t := Table(st, folders, names);
    var n := 1 + |folders|;
    forall i | 0 <= i < |longer| ensures longer[i] == (t + [ServiceBackend(st.services[name], st.groups)])[i] {
      if i >= n {
        assert longer[n + (i - n)] == ServiceBackend(st.services[(names + [name])[i - n]], st.groups);
        if i < |t| { assert t[n + (i - n)] == ServiceBackend(st.services[names[i - n]], st.groups); }
      } else if i > 0 {
        assert longer[1 + (i - 1)] == PlainBackend(FolderRoute(folders[i - 1]), Process);
        assert t[1 + (i - 1)] == PlainBackend(FolderRoute(folders[i - 1]), Process);
      }
    }
  }

  lemma {:induction false} MembersAppend(batch: seq<Service>, svc: Service, folder: string)
    ensures Members(batch + [svc], folder)
         == Members(batch, folder) + (if svc.process.Some? && FolderOf(svc) == folder then [svc] else [])
  {
    assert (batch + [svc])[..|batch|] == batch;
  }

  lemma {:induction false} FoldersAppend(batch: seq<Service>, svc: Service)
    ensures Folders(batch + [svc]) == Folders(batch) + (if FolderOf(svc) != "" then {FolderOf(svc)} else {})
  {
    var all := batch + [svc];
    assert svc in all;
    forall x ensures x in all <==> x in batch || x == svc {}
    forall f | f in Folders(batch) ensures f in Folders(all) {
      var x :| x in batch && FolderOf(x) != "" && FolderOf(x) == f;
      assert x in all;
    }
  }

  lemma {:induction false} MembersOfNewFolder(batch: seq<Service>, folder: string)
    requires folder != "" && folder !in Folders(batch)
    ensures Members(batch, folder) == []
  {
    forall x ensures x !in Members(batch, folder) {}
    HasMember(Members(batch, folder));
  }

  lemma {:induction false} MembersGrow(batch: seq<Service>, svc: Service, folder: string)
    requires folder in Folders(batch + [svc])
    ensures folder in Grown(GroupsOf(batch), svc)
    ensures Members(batch + [svc], folder) == Grown(GroupsOf(batch), svc)[folder]
  {
    FoldersAppend(batch, svc);
    MembersAppend(batch, svc, folder);
    if folder !in Folders(batch) {
      MembersOfNewFolder(batch, folder);
    }
  }

  lemma {:induction false} GroupsOfGrow(batch: seq<Service>, svc: Service)
    ensures GroupsOf(batch + [svc]) == Grown(GroupsOf(batch), svc)
  {
    var all, grown := batch + [svc], Grown(GroupsOf(batch), svc);
    FoldersAppend(batch, svc);
    forall f | f in Folders(all) ensures f in grown && Members(all, f) == grown[f] {
      MembersGrow(batch, svc, f);
    }
  }
}
