/** The process watcher over runs of scans and fingerprints. */
module WatcherRuns {
  import opened Basics
  import opened Discovered
  import opened ChangeDetection

  datatype Event = Scanned(services: seq<Service>) | Fingerprinted(infos: map<Endpoint, ServiceInfo>)

  function Next(current: map<int, Service>, e: Event): map<int, Service> {
    match e
    case Scanned(services) => if Unchanged(services, current) then current else ByPid(services)
    case Fingerprinted(infos) => Merged(current, infos)
  }

  /** The processes the watcher knows after these events. */
  function Run(events: seq<Event>): map<int, Service> {
    if events == [] then map[] else Next(Run(events[..|events| - 1]), events[|events| - 1])
  }

  function LastScan(events: seq<Event>): seq<Service> {
    if events == [] then []
    else
      var e := events[|events| - 1];
      if e.Scanned? then e.services else LastScan(events[..|events| - 1])
  }

  /** A list of services as a scan makes it. */
  predicate IsScan(services: seq<Service>) { AllProcesses(services) && OnePortPerEntry(services) }

  ghost predicate Scans(events: seq<Event>) {
    forall e :: e in events && e.Scanned? ==> IsScan(e.services)
  }

  lemma {:induction false} ScansInit(events: seq<Event>)
    requires Scans(events) && events != []
    ensures Scans(events[..|events| - 1])
    ensures events[|events| - 1].Scanned? ==> IsScan(events[|events| - 1].services)
  {
    var init, e := events[..|events| - 1], events[|events| - 1];
    assert e in events && forall x :: x in init ==> x in events;
  }

  /** In every run the ports known are those of the last scan, whether it was
      announced or not and whatever fingerprints were merged since. */
  lemma {:induction false} PortsOfLastScan(events: seq<Event>)
    requires Scans(events)
    ensures PortMap(Run(events)) == PortMap(ByPid(LastScan(events)))
  {
    if events != [] {
      var init, e := events[..|events| - 1], events[|events| - 1];
      ScansInit(events);
      PortsOfLastScan(init);
      var before := Run(init);
      match e
      case Scanned(services) =>
        if Unchanged(services, before) {
          ChangeDetectionExact(services, before);
        }
      case Fingerprinted(infos) => MergeKeepsPorts([], before, infos);
    }
  }

  /** In every run a scan is announced if and only if it lists a process twice or
      its process-to-port map is not that of the scan before it. */
  lemma {:induction false} AnnouncedIff(events: seq<Event>, services: seq<Service>)
    requires Scans(events) && IsScan(services)
    ensures !Unchanged(services, Run(events))
       <==> !DistinctPids(services) || PortMap(ByPid(services)) != PortMap(ByPid(LastScan(events)))
  {
    PortsOfLastScan(events);
    ChangeDetectionExact(services, Run(events));
  }
}
