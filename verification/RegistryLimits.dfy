/** What the route registry does not keep: late updates over whole runs, and runs
    in which an expectation fails. */
module RegistryLimits {
  import opened Basics
  import opened Discovered
  import opened Registry
  import opened RegistryRuns

  // ---- Late single updates ----------------------------------------------------------------

  /** The claims of the latest docker report alone. */
  function ReportedContainers(events: seq<Event>): seq<Service> {
    if events == [] then []
    else
      var init, e := events[..|events| - 1], events[|events| - 1];
      if e.Reports? && e.source == Docker
      then Claims(e.services, Regroup(Run(init).groups, Docker, e.services), e.mappings)
      else ReportedContainers(init)
  }

  /** An event that puts something else in the place of a container at `name`, or
      removes it: another single update of the name, a docker report, or a report
      of processes of which one claims the name. */
  predicate Takes(before: State, e: Event, name: string) {
    match e
    case Single(svc) => svc.subdomain == name
    case Reports(source, services, mappings) =>
      || source == Docker
      || (source == Process && LastNamed(Claims(services, GroupsOf(services), mappings), name).Some?)
  }

  /** The container that a single update brought to `name`, not blocked by a
      source of higher priority, if nothing has taken the name since. */
  function Brought(events: seq<Event>, name: string): Option<Service> {
    if events == [] then None
    else
      var init, e := events[..|events| - 1], events[|events| - 1];
      if e.Single? && e.service.subdomain == name && !Blocked(Run(init).services, e.service) then Some(e.service)
      else if Takes(Run(init), e, name) then None
      else Brought(init, name)
  }

  ghost predicate Watching(events: seq<Event>) {
    && WellFormed(events) && SinglesAreContainers(events)
    && forall e :: e in events && e.Reports? ==> !e.source.Other?
  }

  lemma {:induction false} WatchingInit(events: seq<Event>)
    requires Watching(events) && events != []
    ensures Watching(events[..|events| - 1]) && events[|events| - 1] in events
  {
    assert forall x :: x in events[..|events| - 1] ==> x in events;
  }

  /** What one event does to a container at `name`. */
  lemma {:induction false} StepAtContainer(st: State, e: Event, name: string)
    requires e.Reports? ==> Sourced(e.services, e.source) && !e.source.Other?
    requires e.Single? ==> e.service.source == Docker
    requires name in st.services && st.services[name].source == Docker
    ensures !Takes(st, e, name) ==> name in Step(st, e).services && Step(st, e).services[name] == st.services[name]
    ensures Takes(st, e, name) && e.Single? ==> name in Step(st, e).services && Step(st, e).services[name] == e.service
    ensures Takes(st, e, name) && e.Reports? && e.source == Process ==>
              name in Step(st, e).services && Step(st, e).services[name].source == Process
  {
    if e.Reports? {
      UpdateAtName(st, e.source, e.services, e.mappings, name);
      ClaimsSourced(e.services, e.source, Regroup(st.groups, e.source, e.services), e.mappings);
    }
  }

  lemma {:induction false} BroughtOrReported(events: seq<Event>, name: string)
    requires Watching(events)
    ensures var b, services := Brought(events, name), Run(events).services;
            && (b.Some? ==> name in services && services[name] == b.value && b.value.source == Docker)
            && (b.None? && name in services && services[name].source == Docker ==>
                  services[name] in ReportedContainers(events))
  {
    if events != [] {
      var init, e := events[..|events| - 1], events[|events| - 1];
      WatchingInit(events);
      BroughtOrReported(init, name);
      var st := Run(init);
      if name in st.services && st.services[name].source == Docker {
        StepAtContainer(st, e, name);
      }
      if e.Reports? {
        UpdateAtName(st, e.source, e.services, e.mappings, name);
        ClaimsSourced(e.services, e.source, Regroup(st.groups, e.source, e.services), e.mappings);
      }
    }
  }

  /** Over every run: a container outside the latest docker report is stored at a
      name if and only if a single update brought one there, no source of higher
      priority holding the name then, and nothing has taken the name since. */
  lemma {:induction false} OutsideReportIff(events: seq<Event>, name: string)
    requires Watching(events)
    ensures var b, services := Brought(events, name), Run(events).services;
            && (b.Some? ==> name in services && services[name] == b.value)
            && (name in services && services[name].source == Docker && services[name] !in ReportedContainers(events)
                <==> b.Some? && b.value !in ReportedContainers(events))
  {
    BroughtOrReported(events, name);
  }

  // ---- Runs that go wrong -----------------------------------------------------------------

  lemma {:induction false} RunOfOne(e: Event)
    ensures Run([e]) == Step(EMPTY, e)
  {
    assert [e][..0] == [];
  }

  lemma {:induction false} RunOfTwo(e: Event, f: Event)
    ensures Run([e, f]) == Step(Step(EMPTY, e), f)
  {
    RunOfOne(e);
    assert [e, f][..1] == [e];
  }

  lemma {:induction false} RunOfThree(e: Event, f: Event, g: Event)
    ensures Run([e, f, g]) == Step(Step(Step(EMPTY, e), f), g)
  {
    RunOfTwo(e, f);
    assert [e, f, g][..2] == [e, f];
  }

  lemma {:induction false} OneInFolder(svc: Service, folder: string)
    ensures !IsFolderGroup(GroupsOf([svc]), folder)
  {
    assert [svc] == [] + [svc];
    MembersAppend([], svc, folder);
  }

  lemma {:induction false} TwoInFolder(p: Service, q: Service)
    requires p.process.Some? && q.process.Some? && FolderOf(p) == FolderOf(q) != ""
    ensures IsFolderGroup(GroupsOf([p, q]), FolderOf(p)) && GroupsOf([p, q]).Keys == {FolderOf(p)}
  {
    assert [p, q] == [p] + [q] && [p] == [] + [p];
    MembersAppend([p], q, FolderOf(p));
    MembersAppend([], p, FolderOf(p));
    FoldersAppend([p], q);
    FoldersAppend([], p);
    assert Folders([]) == {};
  }

  /** A container whose name a process took is gone when the process leaves,
      although it is still in the latest docker report. */
  lemma {:induction false} OverwrittenContainerLost(container: Service, process: Service)
    requires container.source == Docker && container.process.None?
    requires process.source == Process && process.process.Some? && !process.process.value.needsCustomMapping
    requires FolderOf(process) == container.subdomain
    ensures var events := [Reports(Docker, [container], map[]), Reports(Process, [process], map[]),
                          Reports(Process, [], map[])];
            Run(events).services == map[] && ReportedContainers(events) == [container]
  {
    var e, f, g := Reports(Docker, [container], map[]), Reports(Process, [process], map[]), Reports(Process, [], map[]);
    RunOfThree(e, f, g);
    var s1 := Step(EMPTY, e);
    var s2 := Step(s1, f);
    OneInFolder(process, FolderOf(process));
    OverwritesAtName(container, process, s1, s2);
    forall name ensures name !in Step(s2, g).services {
      UpdateAtName(s2, Process, [], map[], name);
    }
    ReportedStays(e, f, g);
  }

  lemma {:induction false} ReportedStays(e: Event, f: Event, g: Event)
    requires e.Reports? && e.source == Docker && |e.services| == 1 && e.services[0].process.None?
    requires f.Reports? && f.source == Process && g.Reports? && g.source == Process
    ensures ReportedContainers([e, f, g]) == e.services
  {
    assert [e, f, g][..2] == [e, f] && [e, f][..1] == [e] && [e][..0] == [];
    assert ReportedContainers([e]) == Claims(e.services, Regroup(Run([]).groups, Docker, e.services), e.mappings);
    assert ReportedContainers([e, f]) == ReportedContainers([e]);
  }

  lemma {:induction false} OverwritesAtName(container: Service, process: Service, s1: State, s2: State)
    requires container.source == Docker && container.process.None?
    requires process.source == Process && process.process.Some? && !process.process.value.needsCustomMapping
    requires FolderOf(process) == container.subdomain && !IsFolderGroup(GroupsOf([process]), FolderOf(process))
    requires s1 == Update(EMPTY, Docker, [container], map[]) && s2 == Update(s1, Process, [process], map[])
    ensures forall name :: name in s2.services ==> s2.services[name].source == Process
  {
    var claims := Claims([process], GroupsOf([process]), map[]);
    assert claims == [process.(subdomain := FolderOf(process))];
    assert claims[..0] == [];
    assert Claims([container], EMPTY.groups, map[]) == [container] && [container][..0] == [];
    forall name | name in s2.services ensures s2.services[name].source == Process {
      UpdateAtName(EMPTY, Docker, [container], map[], name);
      UpdateAtName(s1, Process, [process], map[], name);
    }
  }

  /** A process alone in its folder that asked for a mapping and has one loses its
      mapped name when it is announced again, as after fingerprinting. */
  lemma {:induction false} AnnouncedAgainLosesMapping(svc: Service, mappings: map<string, Mapping>)
    requires svc.source == Process && svc.process.Some? && svc.process.value.needsCustomMapping
    requires svc.process.value.cwd in mappings
    requires MappedName(mappings[svc.process.value.cwd]) != FolderOf(svc)
    ensures var first := Run([Reports(Process, [svc], mappings)]);
            var name := MappedName(mappings[svc.process.value.cwd]);
            && name in first.services
            && var again := Run([Reports(Process, [svc], mappings),
                             Reports(Process, [first.services[name]], mappings)]);
               name !in again.services && FolderOf(svc) in again.services
  {
    var name := MappedName(mappings[svc.process.value.cwd]);
    var once := Resolved(svc, GroupsOf([svc]), mappings);
    assert Claims([svc], GroupsOf([svc]), mappings) == [once] && [once][..0] == [];
    UpdateAtName(EMPTY, Process, [svc], mappings, name);
    RunOfOne(Reports(Process, [svc], mappings));
    var first := Run([Reports(Process, [svc], mappings)]);
    RunOfTwo(Reports(Process, [svc], mappings), Reports(Process, [once], mappings));
    OneInFolder(once, FolderOf(once));
    var twice := once.(subdomain := FolderOf(svc));
    assert Claims([once], GroupsOf([once]), mappings) == [twice] && [twice][..0] == [];
    UpdateAtName(first, Process, [once], mappings, name);
    UpdateAtName(first, Process, [once], mappings, FolderOf(svc));
  }

  /** A container called like a folder of two processes. */
  ghost predicate CalledLikeFolder(p: Service, q: Service, container: Service) {
    && p.source == q.source == Process && p.process.Some? && q.process.Some?
    && container.source == Docker && container.process.None?
    && FolderOf(p) == FolderOf(q) == container.subdomain != ""
    && container.subdomain != PidName(p.process.value.pid) && container.subdomain != PidName(q.process.value.pid)
  }

  /** It is stored under the name of the folder's own route ... */
  lemma {:induction false} FolderAndContainerClash(p: Service, q: Service, container: Service)
    requires CalledLikeFolder(p, q, container)
    ensures var st := Run([Reports(Process, [p, q], map[]), Reports(Docker, [container], map[])]);
            && container.subdomain in st.services && st.services[container.subdomain] == container
            && container.subdomain in SharedFolders(st.groups) && st.groups.Keys == {container.subdomain}
            && KeyedByName(st.services)
  {
    var e, f := Reports(Process, [p, q], map[]), Reports(Docker, [container], map[]);
    RunOfOne(e);
    RunOfTwo(e, f);
    TwoInFolder(p, q);
    UnmappedNames(p, q);
    ContainerStored(p, q, container);
    forall k | k in Run([e, f]).services ensures Run([e, f]).services[k].subdomain == k {
      assert WellFormed([e, f]);
      Provenance([e, f], k);
    }
  }

  lemma {:induction false} ContainerStored(p: Service, q: Service, container: Service)
    requires CalledLikeFolder(p, q, container)
    requires LastNamed(Claims([p, q], GroupsOf([p, q]), map[]), container.subdomain).None?
    ensures var st := Update(Update(EMPTY, Process, [p, q], map[]), Docker, [container], map[]);
            container.subdomain in st.services && st.services[container.subdomain] == container
  {
    assert Claims([container], GroupsOf([p, q]), map[]) == [container] && [container][..0] == [];
    UpdateAtName(EMPTY, Process, [p, q], map[], container.subdomain);
    UpdateAtName(Update(EMPTY, Process, [p, q], map[]), Docker, [container], map[], container.subdomain);
  }

  /** ... so that two published routes have that name. */
  lemma {:induction false} TwoRoutesOfOneName(p: Service, q: Service, container: Service, routes: seq<Route>,
                                              backends: seq<Backend>)
    requires CalledLikeFolder(p, q, container)
    requires Published(Run([Reports(Process, [p, q], map[]), Reports(Docker, [container], map[])]), routes, backends)
    ensures !DistinctNames(routes)
  {
    FolderAndContainerClash(p, q, container);
    PublishedNamesDistinctIff(Run([Reports(Process, [p, q], map[]), Reports(Docker, [container], map[])]),
                              routes, backends);
  }

  lemma {:induction false} UnmappedNames(p: Service, q: Service)
    requires p.process.Some? && q.process.Some? && FolderOf(p) == FolderOf(q) != ""
    ensures var claims := Claims([p, q], GroupsOf([p, q]), map[]);
            && LastNamed(claims, FolderOf(p)).Some? ==>
                 FolderOf(p) == PidName(p.process.value.pid) || FolderOf(p) == PidName(q.process.value.pid)
  {
    TwoInFolder(p, q);
    var claims := Claims([p, q], GroupsOf([p, q]), map[]);
    assert claims[0].subdomain == PidName(p.process.value.pid) && claims[1].subdomain == PidName(q.process.value.pid);
    assert forall c :: c in claims ==> c == claims[0] || c == claims[1];
  }
}
