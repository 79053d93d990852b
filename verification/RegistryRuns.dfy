/** What the route registry guarantees name by name, over any order of updates
    and over whole runs. */
module RegistryRuns {
  import opened Basics
  import opened Discovered
  import opened Registry

  // ---- One update, seen from one name --------------------------------------

  ghost predicate Sourced(services: seq<Service>, source: Source) {
    forall s :: s in services ==> s.source == source
  }

  /** The last service of `claims` that asks for `name`. */
  function LastNamed(claims: seq<Service>, name: string): (r: Option<Service>)
    ensures r.None? ==> forall c :: c in claims ==> c.subdomain != name
    ensures r.Some? ==> r.value in claims && r.value.subdomain == name
    ensures r.Some? ==> exists i :: 0 <= i < |claims| && claims[i] == r.value
                                    && forall j :: i < j < |claims| ==> claims[j].subdomain != name
  {
    if claims == [] then None
    else
      var init, last := claims[..|claims| - 1], claims[|claims| - 1];
      assert claims == init + [last];
      if last.subdomain == name then Some(last) else LastNamed(init, name)
  }

  /** A batch of one source leaves a name alone when a source of higher
      priority holds it, and otherwise gives it to the last claimant. */
  lemma {:induction false} InsertAllAt(base: map<string, Service>, claims: seq<Service>, source: Source, name: string)
    requires Sourced(claims, source)
    ensures var after := InsertAll(base, claims);
            var held := name in base && Priority(base[name].source) > Priority(source);
            var claim := LastNamed(claims, name);
            if held || claim.None?
            then (name in after <==> name in base) && (name in base ==> after[name] == base[name])
            else name in after && after[name] == claim.value
  {
    if claims != [] {
      var init, last := claims[..|claims| - 1], claims[|claims| - 1];
      SourcedParts(claims, source);
      InsertAllAt(base, init, source, name);
    }
  }

  lemma {:induction false} SourcedParts(claims: seq<Service>, source: Source)
    requires Sourced(claims, source) && claims != []
    ensures Sourced(claims[..|claims| - 1], source) && claims[|claims| - 1].source == source
  {
    var init := claims[..|claims| - 1];
    forall c | c in init ensures c in claims {}
  }

  lemma {:induction false} ClaimsSourced(batch: seq<Service>, source: Source, groups: Groups,
                                         mappings: map<string, Mapping>)
    requires Sourced(batch, source)
    ensures Sourced(Claims(batch, groups, mappings), source)
  {
    var claims := Claims(batch, groups, mappings);
    forall c | c in claims ensures c.source == source {
      var i :| 0 <= i < |claims| && claims[i] == c;
      assert batch[i] in batch;
    }
  }

  /** The whole of `UpdateServices` at one name. */
  lemma {:induction false} UpdateAtName(st: State, source: Source, batch: seq<Service>,
                                        mappings: map<string, Mapping>, name: string)
    requires Sourced(batch, source)
    ensures var after := Update(st, source, batch, mappings).services;
            var claim := LastNamed(Claims(batch, Regroup(st.groups, source, batch), mappings), name);
            var others := name in st.services && st.services[name].source != source;
            if others && (claim.None? || Priority(st.services[name].source) > Priority(source))
            then name in after && after[name] == st.services[name]
            else if claim.Some? then name in after && after[name] == claim.value
            else name !in after
  {
    var groups := Regroup(st.groups, source, batch);
    ClaimsSourced(batch, source, groups, mappings);
    InsertAllAt(RemoveSource(st.services, source), Claims(batch, groups, mappings), source, name);
  }

  // ---- The canonical table ---------------------------------------------------

  /** The resolved claims of the three discovery sources. */
  datatype Claimed = Claimed(process: seq<Service>, docker: seq<Service>, wellKnown: seq<Service>) {
    function Of(source: Source): seq<Service> {
      match source
      case Process => process
      case Docker => docker
      case WellKnown => wellKnown
      case Other(_) => []
    }

    function With(source: Source, claims: seq<Service>): Claimed {
      match source
      case Process => this.(process := claims)
      case Docker => this.(docker := claims)
      case WellKnown => this.(wellKnown := claims)
      case Other(_) => this
    }

    ghost predicate Valid() {
      Sourced(process, Process) && Sourced(docker, Docker) && Sourced(wellKnown, WellKnown)
    }

    /** Who should hold `name`: the last claimant of its best source. */
    function Best(name: string): Option<Service> {
      if LastNamed(process, name).Some? then LastNamed(process, name)
      else if LastNamed(docker, name).Some? then LastNamed(docker, name)
      else LastNamed(wellKnown, name)
    }
  }

  predicate HoldsBest(services: map<string, Service>, c: Claimed, name: string) {
    && (name in services <==> c.Best(name).Some?)
    && (name in services ==> services[name] == c.Best(name).value)
  }

  ghost predicate Canonical(services: map<string, Service>, c: Claimed) {
    forall name :: HoldsBest(services, c, name)
  }

  lemma {:induction false} CanonicalUnique(m: map<string, Service>, n: map<string, Service>, c: Claimed)
    requires Canonical(m, c) && Canonical(n, c)
    ensures m == n
  {
    forall k ensures (k in m <==> k in n) && (k in m ==> m[k] == n[k]) {
      assert HoldsBest(m, c, k) && HoldsBest(n, c, k);
    }
  }

  /** `source` holds `name`, stops claiming it, and a source below it wants it. */
  predicate Released(c: Claimed, source: Source, claims: seq<Service>, name: string) {
    && c.Best(name).Some?
    && c.Best(name).value.source == source
    && LastNamed(claims, name).None?
    && (   (source == Process && LastNamed(c.docker, name).Some?)
        || (source != WellKnown && LastNamed(c.wellKnown, name).Some?))
  }

  lemma {:induction false} UpdateKeepsBestIff(services: map<string, Service>, c: Claimed, source: Source,
                                              claims: seq<Service>, name: string)
    requires !source.Other? && c.Valid() && Sourced(claims, source)
    requires HoldsBest(services, c, name)
    ensures HoldsBest(InsertAll(RemoveSource(services, source), claims), c.With(source, claims), name)
       <==> !Released(c, source, claims, name)
  {
    InsertAllAt(RemoveSource(services, source), claims, source, name);
  }

  /** A registry that shows the best claimant everywhere still does after one
      update exactly when the update releases no name that a source of lower
      priority also claims: the overwritten service is not brought back. */
  lemma {:induction false} UpdateStaysCanonicalIff(services: map<string, Service>, c: Claimed, source: Source,
                                                  claims: seq<Service>)
    requires !source.Other? && c.Valid() && Sourced(claims, source)
    requires Canonical(services, c)
    ensures Canonical(InsertAll(RemoveSource(services, source), claims), c.With(source, claims))
       <==> forall name :: !Released(c, source, claims, name)
  {
    forall name
      ensures HoldsBest(InsertAll(RemoveSource(services, source), claims), c.With(source, claims), name)
         <==> !Released(c, source, claims, name)
    {
      assert HoldsBest(services, c, name);
      UpdateKeepsBestIff(services, c, source, claims, name);
    }
  }

  // ---- Confluence ------------------------------------------------------------

  /** Batches as the watchers build them: containers have no process record,
      well-known listeners have no folder and ask for no mapping. */
  ghost predicate FromWatcher(source: Source, batch: seq<Service>) {
    && Sourced(batch, source)
    && (source == Docker ==> forall s :: s in batch ==> s.process.None?)
    && (source == WellKnown ==> forall s :: s in batch ==>
          s.process.Some? && FolderOf(s) == "" && !s.process.value.needsCustomMapping)
  }

  datatype Batch = Batch(services: seq<Service>, mappings: map<string, Mapping>)

  function UpdateBatch(st: State, source: Source, b: Batch): State {
    Update(st, source, b.services, b.mappings)
  }

  function ProcessClaims(b: Batch): seq<Service> {
    Claims(b.services, GroupsOf(b.services), b.mappings)
  }

  lemma {:induction false} ClaimsIgnoreGroups(source: Source, b: Batch, g: Groups, h: Groups)
    requires source == Docker || source == WellKnown
    requires FromWatcher(source, b.services)
    ensures Claims(b.services, g, b.mappings) == Claims(b.services, h, b.mappings)
  {
    forall i | 0 <= i < |b.services|
      ensures Resolved(b.services[i], g, b.mappings) == Resolved(b.services[i], h, b.mappings)
    {
      assert b.services[i] in b.services;
    }
  }

  /** The claims of one batch per source, whatever groups they are resolved under. */
  function AllClaims(p: Batch, d: Batch, w: Batch): Claimed {
    Claimed(ProcessClaims(p), Claims(d.services, map[], d.mappings), Claims(w.services, map[], w.mappings))
  }

  lemma {:induction false} AllClaimsValid(p: Batch, d: Batch, w: Batch)
    requires FromWatcher(Process, p.services) && FromWatcher(Docker, d.services) && FromWatcher(WellKnown, w.services)
    ensures AllClaims(p, d, w).Valid()
  {
    ClaimsSourced(p.services, Process, GroupsOf(p.services), p.mappings);
    ClaimsSourced(d.services, Docker, map[], d.mappings);
    ClaimsSourced(w.services, WellKnown, map[], w.mappings);
  }

  function Pick(source: Source, p: Batch, d: Batch, w: Batch): Batch {
    match source
    case Process => p
    case Docker => d
    case WellKnown => w
    case Other(_) => Batch([], map[])
  }

  /** One update, in terms of the claims it brings. */
  lemma {:induction false} UpdateBrings(st: State, source: Source, p: Batch, d: Batch, w: Batch)
    requires !source.Other?
    requires FromWatcher(Process, p.services) && FromWatcher(Docker, d.services) && FromWatcher(WellKnown, w.services)
    ensures UpdateBatch(st, source, Pick(source, p, d, w)).services
         == InsertAll(RemoveSource(st.services, source), AllClaims(p, d, w).Of(source))
  {
    if source != Process {
      ClaimsIgnoreGroups(source, Pick(source, p, d, w), st.groups, map[]);
    }
  }

  function RunOrder(st: State, order: seq<Source>, p: Batch, d: Batch, w: Batch): State {
    if order == [] then st
    else
      var before := RunOrder(st, order[..|order| - 1], p, d, w);
      var source := order[|order| - 1];
      UpdateBatch(before, source, Pick(source, p, d, w))
  }

  /** What the registry should show when only the sources in `order` reported. */
  function Reported(all: Claimed, order: seq<Source>): Claimed {
    Claimed(if Process in order then all.process else [],
            if Docker in order then all.docker else [],
            if WellKnown in order then all.wellKnown else [])
  }

  lemma {:induction false} FreshOrderCanonical(order: seq<Source>, p: Batch, d: Batch, w: Batch)
    requires FromWatcher(Process, p.services) && FromWatcher(Docker, d.services) && FromWatcher(WellKnown, w.services)
    requires NoDuplicates(order) && forall s :: s in order ==> !s.Other?
    ensures Canonical(RunOrder(EMPTY, order, p, d, w).services, Reported(AllClaims(p, d, w), order))
  {
    var all := AllClaims(p, d, w);
    AllClaimsValid(p, d, w);
    if order == [] {
      NothingCanonical(all);
    } else {
      var init, source := order[..|order| - 1], order[|order| - 1];
      LastApart(order);
      FreshOrderCanonical(init, p, d, w);
      var before := RunOrder(EMPTY, init, p, d, w);
      UpdateBrings(before, source, p, d, w);
      UpdateStaysCanonicalIff(before.services, Reported(all, init), source, all.Of(source));
      ReportedMore(all, init, source);
    }
  }

  lemma {:induction false} NothingCanonical(all: Claimed)
    ensures Canonical(map[], Reported(all, []))
  {
    forall name ensures HoldsBest(map[], Reported(all, []), name) {}
  }

  lemma {:induction false} LastApart<T>(s: seq<T>)
    requires NoDuplicates(s) && s != []
    ensures var init, last := s[..|s| - 1], s[|s| - 1];
            && s == init + [last] && NoDuplicates(init) && last !in init
            && (forall x :: x in s <==> x in init || x == last)
  {
    var init := s[..|s| - 1];
    forall x | x in s ensures x in init || x == s[|s| - 1] {
      var i := PlaceOf(s, x);
      if i < |s| - 1 {
        assert init[i] == x;
      }
    }
  }

  lemma {:induction false} ReportedMore(all: Claimed, order: seq<Source>, source: Source)
    requires !source.Other? && source !in order
    ensures Reported(all, order).With(source, all.Of(source)) == Reported(all, order + [source])
    ensures Reported(all, order).Of(source) == []
  {}

  /** Confluence: the three sources may report in any of the six orders. */
  lemma {:induction false} Confluence(order: seq<Source>, p: Batch, d: Batch, w: Batch)
    requires FromWatcher(Process, p.services) && FromWatcher(Docker, d.services) && FromWatcher(WellKnown, w.services)
    requires Enumerates(order, {Process, Docker, WellKnown})
    ensures Canonical(RunOrder(EMPTY, order, p, d, w).services, AllClaims(p, d, w))
    ensures RunOrder(EMPTY, order, p, d, w).services
         == RunOrder(EMPTY, [Process, Docker, WellKnown], p, d, w).services
  {
    var straight := [Process, Docker, WellKnown];
    assert Process in order && Docker in order && WellKnown in order;
    FreshOrderCanonical(order, p, d, w);
    FreshOrderCanonical(straight, p, d, w);
    CanonicalUnique(RunOrder(EMPTY, order, p, d, w).services, RunOrder(EMPTY, straight, p, d, w).services,
                    AllClaims(p, d, w));
  }

  ghost predicate ThreeSources(services: map<string, Service>) {
    forall k :: k in services ==> !services[k].source.Other?
  }

  /** From any state at all, reporting in order of falling priority leads to
      that same table: nothing of the past shines through. */
  lemma {:induction false} FallingOrderResets(st: State, p: Batch, d: Batch, w: Batch)
    requires ThreeSources(st.services)
    requires FromWatcher(Process, p.services) && FromWatcher(Docker, d.services) && FromWatcher(WellKnown, w.services)
    ensures Canonical(RunOrder(st, [Process, Docker, WellKnown], p, d, w).services, AllClaims(p, d, w))
  {
    var all := AllClaims(p, d, w);
    AllClaimsValid(p, d, w);
    assert [Process, Docker, WellKnown][..2] == [Process, Docker];
    assert [Process, Docker][..1] == [Process];
    assert [Process][..0] == [];
    var st1 := UpdateBatch(st, Process, p);
    var st2 := UpdateBatch(st1, Docker, d);
    UpdateBrings(st, Process, p, d, w);
    UpdateBrings(st1, Docker, p, d, w);
    UpdateBrings(st2, WellKnown, p, d, w);
    forall name ensures HoldsBest(UpdateBatch(st2, WellKnown, w).services, all, name) {
      InsertAllAt(RemoveSource(st.services, Process), all.process, Process, name);
      InsertAllAt(RemoveSource(st1.services, Docker), all.docker, Docker, name);
      InsertAllAt(RemoveSource(st2.services, WellKnown), all.wellKnown, WellKnown, name);
    }
    assert RunOrder(st, [Process], p, d, w) == st1;
    assert RunOrder(st, [Process, Docker], p, d, w) == st2;
  }

  // ---- Whole runs --------------------------------------------------------------

  datatype Event =
    | Reports(source: Source, services: seq<Service>, mappings: map<string, Mapping>)
    | Single(service: Service)

  function Step(st: State, e: Event): State {
    match e
    case Reports(source, services, mappings) => Update(st, source, services, mappings)
    case Single(svc) => Late(st, svc)
  }

  function Run(events: seq<Event>): State {
    if events == [] then EMPTY
    else Step(Run(events[..|events| - 1]), events[|events| - 1])
  }

  lemma {:induction false} RunAppend(events: seq<Event>, e: Event)
    ensures Run(events + [e]) == Step(Run(events), e)
  {
    assert (events + [e])[..|events|] == events;
  }

  ghost predicate WellFormed(events: seq<Event>) {
    forall e :: e in events && e.Reports? ==> Sourced(e.services, e.source)
  }

  /** Priority at a name only falls, or the name only goes, in a report of the
      source that held it. */
  lemma {:induction false} PriorityFallsOnlyByHolder(st: State, e: Event, name: string)
    requires e.Reports? ==> Sourced(e.services, e.source)
    requires name in st.services
    requires name !in Step(st, e).services
          || Priority(Step(st, e).services[name].source) < Priority(st.services[name].source)
    ensures e.Reports? && e.source == st.services[name].source
  {
    if e.Reports? {
      ClaimsSourced(e.services, e.source, Regroup(st.groups, e.source, e.services), e.mappings);
      UpdateAtName(st, e.source, e.services, e.mappings, name);
    }
  }

  /** The claims of the latest report of `source`, and the single updates of
      that source that came after it. */
  function Current(events: seq<Event>, source: Source): seq<Service> {
    if events == [] then []
    else
      var init, e := events[..|events| - 1], events[|events| - 1];
      match e
      case Reports(s, services, mappings) =>
        if s == source then Claims(services, Regroup(Run(init).groups, s, services), mappings)
        else Current(init, source)
      case Single(svc) =>
        Current(init, source) + (if svc.source == source then [svc] else [])
  }

  /** Every stored service carries its key as its name and was announced by the
      latest report of its source, or singly after that report. */
  lemma {:induction false} Provenance(events: seq<Event>, name: string)
    requires WellFormed(events)
    requires name in Run(events).services
    ensures Run(events).services[name].subdomain == name
    ensures Run(events).services[name] in Current(events, Run(events).services[name].source)
  {
    var init, e := events[..|events| - 1], events[|events| - 1];
    assert events == init + [e];
    assert e in events;
    var st := Run(init);
    match e {
      case Reports(source, services, mappings) =>
        UpdateAtName(st, source, services, mappings, name);
        ClaimsSourced(services, source, Regroup(st.groups, source, services), mappings);
        if name in st.services { Provenance(init, name); }
      case Single(svc) =>
        if name in st.services { Provenance(init, name); }
    }
  }

  /** `UpdateService` is called for containers only. */
  ghost predicate SinglesAreContainers(events: seq<Event>) {
    forall e :: e in events && e.Single? ==> e.service.source == Docker
  }

  ghost predicate LatestReport(events: seq<Event>, i: int, source: Source) {
    && 0 <= i < |events|
    && events[i].Reports? && events[i].source == source
    && forall j :: i < j < |events| ==> !(events[j].Reports? && events[j].source == source)
  }

  lemma {:induction false} CurrentIsLatest(events: seq<Event>, source: Source)
    requires SinglesAreContainers(events) && source != Docker
    ensures Current(events, source) == []
         || exists i :: LatestReport(events, i, source)
              && Current(events, source)
                 == Claims(events[i].services, Regroup(Run(events[..i]).groups, source, events[i].services),
                           events[i].mappings)
  {
    if events != [] {
      var init, e := events[..|events| - 1], events[|events| - 1];
      assert events == init + [e];
      assert e in events;
      if e.Reports? && e.source == source {
        assert LatestReport(events, |events| - 1, source);
      } else {
        CurrentIsLatest(init, source);
        if Current(init, source) != [] {
          var i :| LatestReport(init, i, source)
              && Current(init, source)
                 == Claims(init[i].services, Regroup(Run(init[..i]).groups, source, init[i].services),
                          init[i].mappings);
          assert init[..i] == events[..i] && init[i] == events[i];
          assert LatestReport(events, i, source);
        }
      }
    }
  }

  lemma {:induction false} GroupsFollowLatest(events: seq<Event>, i: int)
    requires LatestReport(events, i, Process)
    ensures Run(events).groups == GroupsOf(events[i].services)
  {
    var init, e := events[..|events| - 1], events[|events| - 1];
    if i < |events| - 1 {
      assert LatestReport(init, i, Process);
      GroupsFollowLatest(init, i);
    }
  }

  /** The mappings that the latest process report was resolved with. */
  function LatestMappings(events: seq<Event>): map<string, Mapping> {
    if events == [] then map[]
    else
      var e := events[|events| - 1];
      if e.Reports? && e.source == Process then e.mappings else LatestMappings(events[..|events| - 1])
  }

  lemma {:induction false} LatestMappingsAt(events: seq<Event>, i: int)
    requires LatestReport(events, i, Process)
    ensures LatestMappings(events) == events[i].mappings
  {
    if i < |events| - 1 {
      assert LatestReport(events[..|events| - 1], i, Process);
      LatestMappingsAt(events[..|events| - 1], i);
    }
  }

  /** What a stored process is called when it shares its top-level folder: its
      mapped name if its directory is mapped, and otherwise it is disabled
      under its PID. */
  predicate Disciplined(entry: Service, groups: Groups, mappings: map<string, Mapping>) {
    && entry.process.Some?
    && var p := entry.process.value;
       p.topLevelFolder != "" && IsFolderGroup(groups, p.topLevelFolder) ==>
         && p.disabled == (p.cwd !in mappings)
         && entry.subdomain == if p.cwd in mappings then MappedName(mappings[p.cwd]) else PidName(p.pid)
  }

  /** In every reachable state the stored processes come from the latest process
      report, the groups are the groups of that report, and every process in a
      shared folder is disciplined by the mappings of that time; `MappingRuns`
      says how these relate to what is stored now. */
  lemma {:induction false} FolderDiscipline(events: seq<Event>, name: string)
    requires WellFormed(events) && SinglesAreContainers(events)
    requires name in Run(events).services && Run(events).services[name].source == Process
    requires Run(events).services[name].process.Some?
    ensures exists i :: LatestReport(events, i, Process)
              && Run(events).groups == GroupsOf(events[i].services)
              && LatestMappings(events) == events[i].mappings
              && Disciplined(Run(events).services[name], Run(events).groups, events[i].mappings)
  {
    var st := Run(events);
    Provenance(events, name);
    CurrentIsLatest(events, Process);
    var i :| LatestReport(events, i, Process)
          && Current(events, Process)
             == Claims(events[i].services, Regroup(Run(events[..i]).groups, Process, events[i].services),
                        events[i].mappings);
    GroupsFollowLatest(events, i);
    LatestMappingsAt(events, i);
    var batch, mappings := events[i].services, events[i].mappings;
    var claims := Claims(batch, GroupsOf(batch), mappings);
    var j :| 0 <= j < |claims| && claims[j] == st.services[name];
    ResolvedDisciplined(batch[j], GroupsOf(batch), mappings);
  }

  lemma {:induction false} ResolvedDisciplined(svc: Service, groups: Groups, mappings: map<string, Mapping>)
    requires svc.process.Some?
    ensures Disciplined(Resolved(svc, groups, mappings), groups, mappings)
  {
    var p := svc.process.value;
    var entry := Resolved(svc, groups, mappings);
    assert entry.process.value.cwd == p.cwd && entry.process.value.pid == p.pid;
    assert entry.process.value.topLevelFolder == p.topLevelFolder;
  }

  /** A disciplined process never takes the bare name of its shared folder,
      unless the folder is itself dotted or spelled like a PID name. */
  lemma {:induction false} NeverBareFolderName(entry: Service, groups: Groups, mappings: map<string, Mapping>)
    requires Disciplined(entry, groups, mappings)
    requires FolderOf(entry) != "" && IsFolderGroup(groups, FolderOf(entry))
    requires '.' !in FolderOf(entry) && FolderOf(entry) != PidName(entry.process.value.pid)
    ensures entry.subdomain != FolderOf(entry)
  {
    var p := entry.process.value;
    if p.cwd in mappings {
      assert MappedName(mappings[p.cwd])[|mappings[p.cwd].subdomain|] == '.';
    }
  }

  /** The groups are an order-preserving partition of the batch: every process
      with a folder is in the group of that folder and in no other. */
  lemma {:induction false} GroupsPartition(batch: seq<Service>, svc: Service, folder: string)
    requires svc in batch
    ensures folder in GroupsOf(batch) ==> folder != "" && GroupsOf(batch)[folder] != []
    ensures (folder in GroupsOf(batch) && svc in GroupsOf(batch)[folder]) <==> FolderOf(svc) == folder && folder != ""
    ensures folder in GroupsOf(batch) ==>
              GroupsOf(batch)[folder] == Filter(batch, (s: Service) => s.process.Some? && FolderOf(s) == folder)
  {
    if folder in GroupsOf(batch) {
      var s :| s in batch && FolderOf(s) != "" && FolderOf(s) == folder;
      assert s in Members(batch, folder);
    }
    if FolderOf(svc) == folder && folder != "" {
      assert folder in Folders(batch);
      assert svc in Members(batch, folder);
    }
  }

  // ---- A container that was gone comes back --------------------------------------

  lemma {:induction false} RemovedContainerComesBack(svc: Service)
    requires svc.source == Docker && svc.process.None?
    ensures var gone := Run([Reports(Docker, [svc], map[]), Reports(Docker, [], map[])]);
            gone.services == map[]
            && Run([Reports(Docker, [svc], map[]), Reports(Docker, [], map[]), Single(svc)]).services
               == map[svc.subdomain := svc]
  {
    var e1, e2, e3 := Reports(Docker, [svc], map[]), Reports(Docker, [], map[]), Single(svc);
    RunAppend([], e1);
    RunAppend([e1], e2);
    RunAppend([e1, e2], e3);
    assert [e1] + [e2] == [e1, e2] && [e1, e2] + [e3] == [e1, e2, e3];
    var st1 := Run([e1]);
    forall name ensures name !in Run([e1, e2]).services {
      UpdateAtName(EMPTY, Docker, [svc], map[], name);
      UpdateAtName(st1, Docker, [], map[], name);
    }
  }

  /** Resolving writes into the process record. A record announced a second
      time, as after fingerprinting, keeps its name except when it had asked for
      a mapping, has one, and is not in a shared folder: then it falls back to
      the bare folder name. */
  lemma {:induction false} ResolvedTwiceIff(svc: Service, groups: Groups, mappings: map<string, Mapping>)
    requires svc.source == Process && svc.process.Some?
    ensures var once := Resolved(svc, groups, mappings);
            var p := svc.process.value;
            Resolved(once, groups, mappings) == once
            <==> !(p.needsCustomMapping && p.cwd in mappings
                   && !(p.topLevelFolder != "" && IsFolderGroup(groups, p.topLevelFolder))
                   && MappedName(mappings[p.cwd]) != p.topLevelFolder)
  {
    var p := svc.process.value;
    var once := Resolved(svc, groups, mappings);
    var q := once.process.value;
    assert q.cwd == p.cwd && q.pid == p.pid && q.topLevelFolder == p.topLevelFolder;
    if !NeedsMapping(svc, groups) {
      assert once == svc.(subdomain := p.topLevelFolder);
    } else if p.cwd in mappings {
      assert once.subdomain == MappedName(mappings[p.cwd]) && q == p.(disabled := false, needsCustomMapping := false);
    } else {
      assert NeedsMapping(once, groups);
    }
  }

  // ---- The published tables ---------------------------------------------------------

  ghost predicate KeyedByName(services: map<string, Service>) {
    forall k :: k in services ==> services[k].subdomain == k
  }

  ghost predicate DistinctNames(routes: seq<Route>) {
    forall i, j :: 0 <= i < j < |routes| ==> routes[i].subdomain != routes[j].subdomain
  }

  /** The names of a published table, for one iteration order of both maps. */
  ghost predicate NamedInOrder(routes: seq<Route>, folders: seq<string>, names: seq<string>) {
    && |routes| == 1 + |folders| + |names|
    && routes[0].subdomain == ""
    && (forall i :: 0 <= i < |folders| ==> routes[1 + i].subdomain == folders[i])
    && (forall i :: 0 <= i < |names| ==> routes[1 + |folders| + i].subdomain == names[i])
  }

  lemma {:induction false} TableFolderName(st: State, folders: seq<string>, names: seq<string>, i: nat)
    requires i < |folders| && forall k :: k in names ==> k in st.services
    ensures Table(st, folders, names)[1 + i].route.subdomain == folders[i]
  {
    assert Table(st, folders, names)[1 + i] == PlainBackend(FolderRoute(folders[i]), Process);
  }

  lemma {:induction false} TableServiceName(st: State, folders: seq<string>, names: seq<string>, i: nat)
    requires i < |names| && KeyedByName(st.services) && forall k :: k in names ==> k in st.services
    ensures Table(st, folders, names)[1 + |folders| + i].route.subdomain == names[i]
  {
    assert names[i] in names;
    assert Table(st, folders, names)[1 + |folders| + i] == ServiceBackend(st.services[names[i]], st.groups);
  }

  /** One route for the dashboard, one per shared folder, one per service. */
  lemma {:induction false} PublishedShape(st: State, routes: seq<Route>,
                                          backends: seq<Backend>) returns (folders: seq<string>, names: seq<string>)
    requires Published(st, routes, backends) && KeyedByName(st.services)
    ensures Enumerates(folders, SharedFolders(st.groups)) && Enumerates(names, st.services.Keys)
    ensures NamedInOrder(routes, folders, names)
    ensures |routes| == 1 + |SharedFolders(st.groups)| + |st.services|
  {
    folders, names :| Enumerates(folders, SharedFolders(st.groups))
                   && Enumerates(names, st.services.Keys)
                   && backends == Table(st, folders, names);
    EnumerationLength(folders, SharedFolders(st.groups));
    EnumerationLength(names, st.services.Keys);
    forall i | 0 <= i < |folders| ensures routes[1 + i].subdomain == folders[i] {
      TableFolderName(st, folders, names, i);
    }
    forall i | 0 <= i < |names| ensures routes[1 + |folders| + i].subdomain == names[i] {
      TableServiceName(st, folders, names, i);
    }
  }

  lemma {:induction false} ClashingNames(routes: seq<Route>, folders: seq<string>, names: seq<string>, k: string)
    requires NamedInOrder(routes, folders, names)
    requires k in names && (k == "" || k in folders)
    ensures !DistinctNames(routes)
  {
    var j :| 0 <= j < |names| && names[j] == k;
    var n := 1 + |folders|;
    assert routes[n + j].subdomain == k;
    if k == "" {
      assert routes[0].subdomain == routes[n + j].subdomain;
    } else {
      var i :| 0 <= i < |folders| && folders[i] == k;
      assert routes[1 + i].subdomain == routes[n + j].subdomain;
    }
  }

  lemma {:induction false} SeparateNames(routes: seq<Route>, folders: seq<string>, names: seq<string>)
    requires NamedInOrder(routes, folders, names)
    requires NoDuplicates(folders) && NoDuplicates(names)
    requires "" !in folders && "" !in names && forall f :: f in folders ==> f !in names
    ensures DistinctNames(routes)
  {
    var n := 1 + |folders|;
    forall i, j | 0 <= i < j < |routes| ensures routes[i].subdomain != routes[j].subdomain {
      if j < n {
        assert routes[1 + (j - 1)].subdomain == folders[j - 1] && folders[j - 1] in folders;
      } else {
        assert routes[n + (j - n)].subdomain == names[j - n] && names[j - n] in names;
      }
      if n <= i {
        assert routes[n + (i - n)].subdomain == names[i - n];
      } else if 0 < i {
        assert routes[1 + (i - 1)].subdomain == folders[i - 1] && folders[i - 1] in folders;
      }
    }
  }

  /** Two published routes share a name exactly when a service is stored under
      the empty name or under the name of a shared folder. */
  lemma {:induction false} PublishedNamesDistinctIff(st: State, routes: seq<Route>, backends: seq<Backend>)
    requires Published(st, routes, backends) && KeyedByName(st.services)
    requires "" !in st.groups
    ensures DistinctNames(routes) <==> "" !in st.services && st.services.Keys !! SharedFolders(st.groups)
  {
    var folders, names := PublishedShape(st, routes, backends);
    if "" in st.services {
      ClashingNames(routes, folders, names, "");
    } else if k :| k in st.services.Keys && k in SharedFolders(st.groups) {
      ClashingNames(routes, folders, names, k);
    } else {
      SeparateNames(routes, folders, names);
    }
  }
}
