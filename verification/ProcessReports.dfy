/** What the daemon does with the announcements of the process watcher. */
module ProcessReports {
  import opened Basics
  import opened Discovered
  import opened Registry
  import opened RegistryRuns
  import ScanResults

  /** The effect of one announcement: first its processes, then its well-known
      services. */
  function Announced(st: State, services: seq<Service>, mappings: map<string, Mapping>): State {
    Update(Update(st, Process, ScanResults.BySource(services, Process), mappings),
           WellKnown, ScanResults.BySource(services, WellKnown), mappings)
  }

  method OnProcessesChanged(registry: RouteRegistry, services: seq<Service>)
    modifies registry
    ensures registry.View() == Announced(old(registry.View()), services, registry.Mappings())
  {
    var processes := ScanResults.FilterBySource(services, Process);
    var _, _ := registry.UpdateServices(Process, processes);
    var wellKnown := ScanResults.FilterBySource(services, WellKnown);
    var _, _ := registry.UpdateServices(WellKnown, wellKnown);
  }

  /** Who holds a name after an announcement, from any state: its last process
      there; else the container that held it; else its last well-known service
      there; else what neither source had stored. */
  lemma {:induction false} AnnouncedAtName(st: State, services: seq<Service>, mappings: map<string, Mapping>,
                                           name: string)
    ensures var after := Announced(st, services, mappings).services;
            var processes, wellKnown := ScanResults.BySource(services, Process),
            ScanResults.BySource(services, WellKnown);
            var process := LastNamed(Claims(processes, GroupsOf(processes), mappings), name);
            var known := LastNamed(Claims(wellKnown, GroupsOf(processes), mappings), name);
            var kept := if name in st.services then Some(st.services[name].source) else None;
            if process.Some? then name in after && after[name] == process.value
            else if kept == Some(Docker) then name in after && after[name] == st.services[name]
            else if known.Some? then name in after && after[name] == known.value
            else if kept.Some? && kept != Some(Process) && kept != Some(WellKnown)
            then name in after && after[name] == st.services[name]
            else name !in after
  {
    var processes, wellKnown := ScanResults.BySource(services, Process), ScanResults.BySource(services, WellKnown);
    assert Sourced(processes, Process) && Sourced(wellKnown, WellKnown);
    ClaimsSourced(processes, Process, GroupsOf(processes), mappings);
    var mid := Update(st, Process, processes, mappings);
    UpdateAtName(st, Process, processes, mappings, name);
    UpdateAtName(mid, WellKnown, wellKnown, mappings, name);
    assert mid.groups == GroupsOf(processes);
  }
}
