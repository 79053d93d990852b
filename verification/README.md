# A verified model of the local proxy daemon

The daemon watches local processes, containers and well-known ports, gives each
service a host name under `.localhost` and `.internal`, and configures a proxy,
its certificates, packet captures, container logs and a dashboard accordingly.
This project models the stateful cores of that daemon in Dafny and proves what
they keep. Code that works by assignment is modelled by classes and methods with
loops, each proved against a specification function; the lemmas are about those
functions, and about all runs and interleavings built from them.

| files | what they cover |
|---|---|
| `Registry`, `RegistryRuns`, `RegistryLimits`, `FolderGroups`, `ProcessReports` | the route registry; confluence, whole runs, folder groups, published names, and runs in which an expectation fails |
| `MappingRuns` | the registry and the mappings in the store over runs in which both change |
| `LockOrder` | the locks of the registry and of the store, over every interleaving of threads |
| `Capture`, `CaptureRuns`, `ProbeRuns` | packet subscriptions as steps under a lock and channels that drop when full, over every interleaving, and marked endpoints against those being probed |
| `PacketBuffer`, `Viewer` | the packet ring and a viewer that subscribes, takes a snapshot and streams, over every interleaving with writers |
| `PacketSubscriptions`, `DaemonRuns` | reconciling subscriptions and buffers with the enabled endpoints, over runs with deliveries and the sweep |
| `Layer4`, `HttpConfig` | the compiled proxy configuration and what first match makes of it |
| `Certificates`, `Coverage`, `RouteServing` | the certificate cache and its files, wildcard matching, and the certificate of every served route |
| `EndToEnd`, `TcpCertificates` | from the reports of the watchers to the certificate a browser is shown, and the one a TCP server finds |
| `Paths`, `Scan`, `ScanResults`, `ChangeDetection`, `WatcherRuns` | base path matching, the process scan, its deduplication and completeness, and the cheap comparison of scans, also over runs |
| `Logs`, `LogRuns` | log lines put together from chunks, and the bounded buffer |
| `ProjectStore` (in `Store.dfy`), `StoreRuns` | the port allocator and the project store over runs of commands |
| `Names`, `Dashboard`, `Sorting`, `DashboardPage`, `DisplayFolders` | label validation, the folder read back from a host, what a dashboard page lists, and the folders it shows |
| `Basics`, `Discovered`, `Decimal`, `Text` | shared vocabulary |

Strings are sequences of characters; in `Logs` a character stands for a byte.
Ports of endpoints are 16 bits wide, ports in the project store are Go `int`s and
unbounded here. Go maps are Dafny maps; wherever the source ranges over a map,
the model ranges over an arbitrary enumeration of its keys and the lemmas hold
for every such order. Buckets of the database are maps and sets, and each write
carries a flag that says whether it succeeded. A nil store, a failed directory
lookup and a failed certificate are modelled, not excluded.

## What the code does not keep

These are properties one would expect, with the exact condition for each and an
input or run on which it fails.

* A service overwritten by a higher source is not brought back when that source
  leaves: `RegistryRuns.UpdateStaysCanonicalIff`, `RegistryLimits.OverwrittenContainerLost`.
* A late single update brings back a container that has left:
  `RegistryLimits.OutsideReportIff`, `RegistryRuns.RemovedContainerComesBack`.
* Resolving a process record twice may take it back to the bare folder name, as
  when a scan is announced again after fingerprinting:
  `RegistryRuns.ResolvedTwiceIff`, `RegistryLimits.AnnouncedAgainLosesMapping`.
* A mapping that is stored or deleted has no effect on the table until processes
  are reported again, although the routes are published at once; and scans that
  find the same processes are not reported: `MappingRuns.AgreesWithStoreIff`,
  `MappingRuns.EqualScansChangeNothing`, `MappingRuns.MappedLaterStaysDisabled`.
* An update of routes and a change of the store block each other for good when
  they cross: `LockOrder.StuckIff`, `LockOrder.CrossedForGood`,
  `LockOrder.TwoThreadsCross`.
* Two published routes may share a name: `RegistryRuns.PublishedNamesDistinctIff`,
  `RegistryLimits.TwoRoutesOfOneName`; the dashboard then loses a backend:
  `DashboardPage.TableKeepsAllIff`, `DashboardPage.ClashLosesBackend`.
* A subscription closed after the capture died closes its channel twice:
  `CaptureRuns.NoDoubleCloseIff`, `CaptureRuns.ClosedAgainAfterSweep`; in the
  daemon that panics as soon as a swept endpoint leaves:
  `PacketSubscriptions.PacketDaemon.UpdatePacketSubscriptions`.
* An endpoint that several probes probe is no longer marked when the first of them
  ends, and its packets are let through: `ProbeRuns.MarkedThroughoutIff`,
  `ProbeRuns.LetThroughWhileProbed`.
* A viewer that took its snapshot first would miss packets:
  `Viewer.SnapshotFirstMisses`; the code subscribes first.
* A certificate overwrites the private key of another when its key is the other
  key with "-key" appended, and that of the root CA when its key is "rootCA-key";
  a request for "rootCA" is met with the root CA's own pair:
  `Certificates.CertificatesIntactIff`, `Certificates.KeyOverwritten`,
  `Certificates.CaKeyOverwritten`, `Certificates.CaTakenForCertificate`.
* A certificate whose write was cut short is taken for a whole one by the next
  request and from then on: `Certificates.CachedIntactIff`,
  `Certificates.PieceTakenForCertificate`.
* The certificate a browser is shown may not cover the host:
  `Coverage.RouteCoveredIff`, and from the watchers' reports on
  `EndToEnd.RequestCoveredIff`, with a container called "localhost"
  (`EndToEnd.LocalhostContainerUncovered`) and a project mapped while it was in
  another folder (`EndToEnd.MovedProjectUncovered`). The dashboard's own never
  covers "internal": `EndToEnd.InternalNeverCovered`.
* TCP servers are also compiled for routes whose certificate could not be made; a
  TLS connection for such a route finds none, unless another route of its name
  has one: `TcpCertificates.TcpCertificateLoadedIff`,
  `TcpCertificates.TcpRouteServedIff`, `TcpCertificates.RedisWithoutCertificate`.
  No TCP server is compiled for a disabled route: `TcpCertificates.DisabledHasNoTcpPort`.
* A directory beside a base path is taken for one inside it and filed under "..":
  `Paths.MatchedBesideIff`, `Paths.FiledUnderParentIff`, for instance
  /home/projects/x when /home/proj is watched (`DisplayFolders.BesideShownOtherwise`).
  The documentation speaks of processes under the projects folder only
  (`README.md:14`); the model follows the code.
* The dashboard shows a process under another folder than it is filed under:
  inside the base path exactly when the first folder on its way is named "apps" or
  "packages"; beside it always, unless its name is the base path's with two dots
  appended: `DisplayFolders.ShownAsFiledIff`, `DisplayFolders.MonorepoShownOtherwise`,
  `DisplayFolders.BesideShownOtherwise`.
* A scan that lists a process twice always counts as changed, and the announcement
  after fingerprinting leaves services out: `ChangeDetection.ChangeDetectionExact`,
  `ChangeDetection.AnnouncementCompleteIff`; so for a process on two well-known
  ports: `ScanResults.ListedTwiceAlwaysChanged`, `ScanResults.ListedTwiceAnnouncedOnce`.
* A port pinned inside the automatic range is handed out again:
  `StoreRuns.PinKeepsExactIff`, `StoreRuns.PinnedPortHandedOut`.
* A port reserved for a project that could not be filed, for instance because it
  has no name, is lost for good: `StoreRuns.BucketExactIff`, `StoreRuns.LostForGood`,
  `StoreRuns.NamelessProjectLeaks`.
* Bytes that arrive while a drain holds a partial line come out before it:
  `LogRuns.RunInOrderIff`, `LogRuns.WriteDuringDrainReorders`.
* A folder with a dot or a colon in its name is not recognised in the host of its
  own processes: `Names.MappedHostDecodedIff`, `Names.DottedFolderNotDetected`.

## Model

| member | source | states |
|---|---|---|
| `Registry.RouteRegistry.UpdateServices` | internal/registry/routes.go:39-67 | the new table is the specified update of the old one (a name held by a higher source stays, otherwise the last claimant gets it), and what is published is that table in some iteration order |
| `Registry.RouteRegistry.RemoveBySource` | internal/registry/routes.go:69-75 | exactly the entries of the source are gone, whatever the iteration order |
| `Registry.RouteRegistry.RebuildFolderGroups` | internal/registry/routes.go:77-85 | the groups are the batch filtered by each non-empty folder, in batch order |
| `Registry.RouteRegistry.ResolveSubdomain` | internal/registry/routes.go:87-129 | the stored record: plain name, mapped name, or disabled under its PID |
| `Registry.RouteRegistry.RouteFor` | internal/registry/routes.go:182-218 | route and backend of one service agree, with the folder group set only in shared folders |
| `Registry.RouteRegistry.GetRoutes` | internal/registry/routes.go:150-223 | routes and backends correspond one to one: the dashboard, one wildcard route per shared folder, one per service |
| `Registry.RouteRegistry.UpdateService` | internal/registry/routes.go:232-251 | one service is stored and announced unless a higher source holds its name |
| `Registry.RouteRegistry.RefreshRoutes` | internal/registry/routes.go:266-270 | the table is published as it is, in some iteration order; it stays unchanged |
| `Registry.RouteRegistry.GetFolderGroups` | internal/registry/routes.go:253-264 | the groups of two or more processes and no others |
| `RegistryRuns.InsertAllAt` | internal/registry/routes.go:48-64 | one batch at one name: kept if a higher source holds it, else the last claimant, else what was there |
| `RegistryRuns.UpdateAtName` | internal/registry/routes.go:39-75 | the whole update at one name, including removal of the source's own old entries |
| `RegistryRuns.UpdateStaysCanonicalIff` | internal/registry/routes.go:39-75 | a table showing every name's best claimant still does after an update if and only if the update releases no name that a lower source claims |
| `RegistryLimits.OverwrittenContainerLost` | internal/registry/routes.go:39-75 | a run in which a container still in the latest report is gone after the process that took its name has left |
| `RegistryRuns.FreshOrderCanonical` | internal/registry/routes.go:39-75 | from an empty registry, any sources reporting once each in any order leave every name with the last claimant of its best source among them |
| `RegistryRuns.Confluence` | internal/registry/routes.go:39-75 | all six orders of the three sources end in the same table, that of the best claimants |
| `RegistryRuns.FallingOrderResets` | internal/registry/routes.go:39-75 | from any state at all, process then docker then well-known leads to that same table |
| `RegistryRuns.PriorityFallsOnlyByHolder` | internal/registry/routes.go:51-75 | the priority at a name falls, or the name goes, only in a report of the source that held it |
| `RegistryRuns.Provenance` | internal/registry/routes.go:56-57 | in every reachable state an entry carries its key as its name and was claimed by the latest report of its source or singly since |
| `RegistryRuns.CurrentIsLatest` | internal/registry/routes.go:232-251 | when single updates are containers only, the claims of another source are those of its latest report |
| `RegistryRuns.GroupsFollowLatest` | internal/registry/routes.go:43-46 | in every reachable state the groups are those of the latest process report |
| `RegistryRuns.FolderDiscipline` | internal/registry/routes.go:87-129 | in every reachable state a stored process of a shared folder is disabled under its PID or named by its mapping, for the groups and mappings at the latest process report |
| `RegistryRuns.NeverBareFolderName` | internal/registry/routes.go:100-113 | such a process never has the bare folder name, for folders without dots that are not spelled like a PID name |
| `MappingRuns.AddSubdomainMapping` | internal/dashboard/server.go:730-772 | a complete mapping whose subdomain is a label is stored if the write succeeds, the table stays and is published again |
| `MappingRuns.RemoveSubdomainMapping` | internal/dashboard/server.go:774-797 | the mapping of the directory is gone, the table stays and is published again |
| `MappingRuns.PlayIsRun` | internal/registry/routes.go:105-113 | with a store that changes the registry goes through the run of its reports, each with the mappings of its time |
| `MappingRuns.AgreesWithStoreIff` | internal/registry/routes.go:87-129 | in every reachable state a stored process of a shared folder has the name and flags that the store now asks for if and only if its directory has the mapped name, or none, that it had at the latest process report |
| `MappingRuns.UntouchedAgrees` | internal/registry/routes.go:266-270 | that is so while the mapping of the directory was neither stored nor deleted since that report |
| `MappingRuns.MappedLaterStaysDisabled` | internal/dashboard/server.go:760-767 | a run in which a process is mapped and its published backend stays disabled under its PID |
| `MappingRuns.EqualScansChangeNothing` | internal/discovery/process.go:102-118 | further scans that list the same processes on the same ports, each once, reach the registry with nothing, so that it stays so |
| `MappingRuns.StoreHoldsLabels` | internal/dashboard/server.go:750-763 | every mapping that reports are resolved with has a label for a subdomain if those stored before have |
| `LockOrder.StepExcludes` | internal/registry/store.go:216-245 | in every interleaving a writer of either lock is alone with it |
| `LockOrder.StuckIff` | internal/registry/routes.go:39-129 | in every reachable state with a thread at work, none of these can go on if and only if an update about to look up a mapping and a change of the store about to refresh the routes have crossed |
| `LockOrder.CrossedForGood` | internal/registry/store.go:216-245 | these two wait for each other from then on, whatever other threads do |
| `LockOrder.TwoThreadsCross` | internal/registry/store.go:216-232 | a run of two threads into that state |
| `LockOrder.WriteDuringUpdateCrosses` | internal/registry/routes.go:48-113 | a change of the store between two lookups of an update crosses it, so that an update which ends found all its mappings in one store |
| `RegistryRuns.GroupsPartition` | internal/registry/routes.go:77-85 | every process with a folder is in the group of that folder and no other |
| `FolderGroups.GroupPositions` | internal/registry/routes.go:77-85 | a group's members are the batch at strictly increasing positions, and these are all positions that hold a process of the folder, repeated records included |
| `FolderGroups.GroupSizesAddUp` | internal/registry/routes.go:77-85 | in whatever order the groups are listed, their sizes add up to the number of services with a folder |
| `RegistryLimits.OutsideReportIff` | internal/registry/routes.go:232-251 | over every run: a container outside the latest docker report is stored at a name if and only if a later single update brought it there while no higher source held the name, and nothing has taken the name since |
| `RegistryRuns.RemovedContainerComesBack` | internal/registry/routes.go:232-251 | a run in which a container that has left is stored again |
| `RegistryRuns.ResolvedTwiceIff` | internal/registry/routes.go:105-113 | resolving is idempotent except for a mapped record outside shared folders whose mapped name is not its folder |
| `RegistryLimits.AnnouncedAgainLosesMapping` | internal/registry/routes.go:100-128 | a run in which a mapped process announced again falls back to the bare folder name |
| `RegistryRuns.PublishedShape` | internal/registry/routes.go:150-223 | the published routes enumerate the dashboard, the shared folders and the stored names; their number is one plus both sizes |
| `RegistryRuns.PublishedNamesDistinctIff` | internal/registry/routes.go:165-218 | published names are distinct if and only if no service is stored under the empty name or a shared folder's name |
| `RegistryLimits.TwoRoutesOfOneName` | internal/registry/routes.go:165-218 | a run after which a container has the name of a shared folder and two published routes share it |
| `ProcessReports.OnProcessesChanged` | cmd/localproxyd/caddy_daemon.go:455-458 | the processes of an announcement are reported first, then its well-known services |
| `ProcessReports.AnnouncedAtName` | cmd/localproxyd/caddy_daemon.go:455-458 | who holds a name after an announcement, from any state: process, else the container there, else well-known service, else what neither had stored |
| `ScanResults.FilterBySource` | cmd/localproxyd/caddy_daemon.go:509-517 | the services of one source, in order |
| `Capture.Capture.Subscribe` | pkg/tshark/capture.go:87-99 | a fresh open subscription is appended to the list of its target |
| `Capture.Capture.Unsubscribe` | pkg/tshark/capture.go:101-115 | the subscription is unlisted, an emptied list goes with it, then its channel is closed |
| `Capture.Capture.Send` | pkg/tshark/capture.go:127-148 | subscribers of both valid ends are offered the packet once, also when the ends are equal; nothing else changes |
| `Capture.Capture.Deliver` | pkg/tshark/capture.go:117-148 | nothing is offered while either end is marked as being probed |
| `Capture.Discovery.Mark` | pkg/tshark/capture.go:69-73 | the endpoint is marked and no other mark changes |
| `Capture.Discovery.Clear` | pkg/tshark/capture.go:75-79 | the mark is gone and no other changes |
| `Capture.Capture.CloseAllSubs` | pkg/tshark/capture.go:249-258 | every registered channel is closed once and no list remains |
| `Capture.SentExactly` | pkg/tshark/capture.go:117-148 | a packet is offered to a subscription exactly when it is registered under a valid end, and then its channel is open |
| `CaptureRuns.Safety` | pkg/tshark/capture.go:87-148 | in every interleaving: registered subscriptions are open, listed once under their own target, no list is empty, and no send hits a closed channel |
| `CaptureRuns.Accounting` | pkg/tshark/capture.go:101-115 | in every interleaving, how often a channel was closed, whether it is listed and how many closers are between their two steps, from the calls made |
| `CaptureRuns.ClosedOnceIff` | pkg/tshark/capture.go:101-115 | a channel is closed at most once if and only if one `Close` finished, or none when the sweep came first |
| `CaptureRuns.NoDoubleCloseIff` | pkg/tshark/capture.go:249-258 | no channel is closed twice in a run if and only if that holds of every subscription |
| `CaptureRuns.ClosedAgainAfterSweep` | pkg/tshark/capture.go:101-115 | a possible run in which a channel is closed by the sweep and again by its subscriber |
| `CaptureRuns.DeliveryInRun` | pkg/tshark/capture.go:117-148 | in every interleaving a send reaches exactly the subscriptions of its ends that are not being closed and not swept |
| `ProbeRuns.MarkedIff` | pkg/tshark/capture.go:69-86 | in every interleaving an endpoint is marked if and only if a probe of it started and none ended since; then it is being probed |
| `ProbeRuns.MarkedThroughoutIff` | internal/discovery/fingerprint.go:24-31 | throughout a run an endpoint is marked exactly while it is probed if and only if no probe of it ended while another went on |
| `ProbeRuns.LetThroughWhileProbed` | pkg/tshark/capture.go:117-125 | a run in which a packet of an endpoint is let through although it is being probed |
| `PacketBuffer.PacketBuffer.Add` | pkg/tshark/buffer.go:30-49 | the packet joins the history the ring stands for and is offered to every subscriber, dropped where the channel is full |
| `PacketBuffer.PacketBuffer.Write` | pkg/tshark/buffer.go:30-38 | the ring stands for the history with the packet appended |
| `PacketBuffer.PacketBuffer.OfferAll` | pkg/tshark/buffer.go:40-48 | each subscriber's channel gets the packet if it has room; other channels are untouched |
| `PacketBuffer.PacketBuffer.Snapshot` | pkg/tshark/buffer.go:51-60 | the last `size` packets of the history, oldest first |
| `PacketBuffer.PacketBuffer.Get` | pkg/tshark/buffer.go:70-80 | the first packet of that number still in the ring, or none if there is none |
| `PacketBuffer.PacketBuffer.Subscribe` | pkg/tshark/buffer.go:62-68 | a fresh empty channel is listed last |
| `PacketBuffer.PacketBuffer.Unsubscribe` | pkg/tshark/buffer.go:82-91 | the channel is out of the list and the order of the others stays |
| `PacketBuffer.RingWritten` | pkg/tshark/buffer.go:26-38 | writing into a free slot or over the oldest packet keeps the ring equal to the last packets of the history |
| `Viewer.AllTracked` | internal/dashboard/packets.go:66-88 | in every interleaving each packet is with its writer, was offered before the subscription, or was offered to the viewer and is received, queued or dropped |
| `Viewer.MissedIff` | internal/dashboard/packets.go:66-88 | a packet is missed if and only if it was written after the snapshot and offered before the subscription |
| `Viewer.NoGap` | internal/dashboard/packets.go:66-88 | subscribing first, no packet is missed: in the snapshot, evicted by `size` later writes, offered, or still with its writer |
| `Viewer.SnapshotHolds` | internal/dashboard/packets.go:66-88 | a place counts as in the snapshot if and only if the ring hands it out then |
| `Viewer.SnapshotIsSuffix` | pkg/tshark/buffer.go:51-60 | the places of the snapshot in the interleaving are those of the packets that the ring hands out |
| `Viewer.SnapshotFirstMisses` | internal/dashboard/packets.go:66-88 | in the other order an interleaving misses a packet |
| `Viewer.HistoryOrder` | pkg/tshark/buffer.go:30-49 | with one writer, what the viewer has read and what its channel holds are in history order |
| `Viewer.PageInOrder` | internal/dashboard/packets.go:66-88 | with one writer the snapshot followed by what is received is in history order, apart from the first few received, which are exactly those that the snapshot held or that were evicted before it |
| `PacketSubscriptions.PacketDaemon.UpdatePacketSubscriptions` | cmd/localproxyd/caddy_daemon.go:212-241 | it panics if and only if a swept endpoint leaves; otherwise both tables have exactly the enabled endpoints, survivors keep both objects, newcomers get fresh ones, leavers are closed once, and a repeat changes nothing |
| `PacketSubscriptions.LiveCaptureRegistersExactly` | cmd/localproxyd/caddy_daemon.go:207-242 | no subscription is swept if and only if the capture registers exactly the daemon's subscriptions |
| `PacketSubscriptions.DeathSweepsAll` | pkg/tshark/capture.go:249-258 | when the capture dies every endpoint of the daemon is swept |
| `DaemonRuns.MoveValid` | cmd/localproxyd/caddy_daemon.go:207-242 | what an update relies on survives updates, deliveries, reads and the sweep |
| `DaemonRuns.RunValid` | cmd/localproxyd/caddy_daemon.go:207-242 | it holds after every run from the start, and nothing is swept while the capture lives |
| `DaemonRuns.LiveRunReconciled` | cmd/localproxyd/caddy_daemon.go:207-242 | after every run without the death of the capture both tables have exactly the enabled endpoints of the latest update, the capture registers exactly their subscriptions, and no update can panic |
| `Layer4.BuildL4App` | internal/proxy/caddy_l4.go:43-166 | one server per TCP port in use, under its own name, with the compiled routes of that port; none without TCP routes |
| `Layer4.GroupByPort` | internal/proxy/caddy_l4.go:47-57 | the routes of each TCP port in input order |
| `Layer4.CompiledMeans` | internal/proxy/caddy_l4.go:66-157 | first match over the compiled routes picks the first route naming the requested name, else the first route of the port |
| `Layer4.L4AppMeans` | internal/proxy/caddy_l4.go:43-166 | every connection on every port goes to the destination the input routes define, whatever the map order |
| `Layer4.ServerNameInjective` | internal/proxy/caddy_l4.go:159-162 | different ports get different server names |
| `HttpConfig.BuildCaddyConfig` | internal/proxy/caddy.go:41-166 | host routes in input order and one certificate and policy per tag in some order, then the default policy |
| `HttpConfig.HostsDisjoint` | internal/proxy/caddy.go:53-67 | a host or server name belongs to one subdomain only |
| `HttpConfig.UpstreamMeans` | internal/proxy/caddy.go:46-79 | a request goes to the first route of the subdomain its host belongs to, and unknown hosts to none |
| `HttpConfig.ListedUnderOneTag` | internal/proxy/caddy.go:81-97 | a server name is listed under the tag of its own subdomain and no other |
| `HttpConfig.CertificateMeans` | internal/proxy/caddy.go:81-118 | the policy selected for a name and the one certificate of its tag do not depend on the map order |
| `Certificates.CertManager.EnsureCertInternal` | internal/certs/mkcert.go:213-298 | the cache and the files after a request, also when generating fails or a write fails outright or half way, and success exactly when the key is cached |
| `Certificates.CertManager.GetPaths` | internal/certs/mkcert.go:300-321 | the cached paths, or empty ones for a key never ensured |
| `Certificates.CachedPaths` | internal/certs/mkcert.go:300-321 | after any run, what is cached for a key are the paths of that key |
| `Certificates.CompatibleRunKept` | internal/certs/mkcert.go:213-248 | over every run of compatible requests, failures and restarts the root CA is intact, a certificate on disk is whole with its own private key unless a write of it was cut short, and then it stays a piece; a cached key points at its own files |
| `Certificates.CachedIntactIff` | internal/certs/mkcert.go:213-298 | in such runs a cached certificate is intact if and only if no write of it was ever cut short |
| `Certificates.PieceTakenForCertificate` | internal/certs/mkcert.go:227-236 | a run in which the piece of a certificate is cached as the certificate |
| `Certificates.IntactMeansCompatible` | internal/certs/mkcert.go:213-248 | requests whose certificates are all in place share no file and none takes a file of the root CA |
| `Certificates.CertificatesIntactIff` | internal/certs/mkcert.go:213-248 | after any run in which every request was met in the end, all certificates and the root CA are intact if and only if the keys are compatible and no write of a certificate was cut short |
| `Certificates.KeyOverwritten` | internal/certs/mkcert.go:213-298 | a run in which the certificate of "api-key" overwrites the private key of "api" |
| `Certificates.CaKeyOverwritten` | internal/certs/mkcert.go:213-298 | a run in which the certificate of "rootCA-key" overwrites the private key of the root CA |
| `Certificates.CaTakenForCertificate` | internal/certs/mkcert.go:227-236 | a request for "rootCA" leaves every file as it is and caches the root CA's own pair |
| `Coverage.WildcardCovers` | internal/certs/mkcert.go:239-245 | a wildcard covers one label more than its parent, no further (section 6.4.3 of RFC 6125) |
| `Coverage.WildcardNamesCover` | internal/certs/mkcert.go:239-245 | under either suffix, the names of a wildcard certificate cover a subdomain if and only if it is the parent or one label under it, or what the parent matches when itself spelled as a wildcard |
| `Coverage.RouteCoveredIff` | cmd/localproxyd/caddy_daemon.go:381-406 | the certificate chosen for a named route covers a host of it if and only if the stated condition on subdomain and folder holds |
| `Coverage.RootCertificateMissesInternal` | internal/certs/mkcert.go:237-238 | the dashboard's certificate covers "localhost" but not "internal", which the dashboard is also served under |
| `RouteServing.OnRoutesChanged` | cmd/localproxyd/caddy_daemon.go:362-433 | the certificates ensured, the routes served and the hosts announced: enabled routes whose certificate succeeded, in order, after the root route; then the two compiled configurations |
| `RouteServing.ServeIsRun` | cmd/localproxyd/caddy_daemon.go:375-417 | the certificate state after a change is that of the run of its requests after all earlier ones |
| `RouteServing.ServedRoutes` | cmd/localproxyd/caddy_daemon.go:375-417 | every served route stems from an enabled published one and carries the paths cached for its own request |
| `RouteServing.ServedRouteRightIff` | cmd/localproxyd/caddy_daemon.go:375-417 | while all requests so far are compatible, every served route has a certificate with its own key if and only if no write of it was cut short, and that certificate covers each host of the route if and only if, besides, the route is coverable |
| `RouteServing.ServedNames` | cmd/localproxyd/caddy_daemon.go:375-417 | a name is served if and only if an enabled route of that name has or gets its certificate |
| `EndToEnd.MappedProcessCoveredIff` | internal/registry/routes.go:105-110 | a mapped process of a shared folder with a single-label mapping is covered if and only if its mapping was stored for that folder, or spells it another way |
| `EndToEnd.GroupedIsMapped` | internal/registry/routes.go:87-129 | in every run of the watchers a stored service with a folder group that is not disabled is a process named by the mapping it had at the latest process report |
| `EndToEnd.PublishedCoverableIff` | cmd/localproxyd/caddy_daemon.go:375-406 | for every run of the watchers and every published order, an enabled named route is coverable if and only if its name fits: not "localhost", or mapped for its own folder at the latest process report |
| `EndToEnd.PairPicked` | internal/proxy/caddy.go:41-166 | an HTTPS request for a served subdomain reaches its first route with the first certificate of its tag, whatever the map order |
| `EndToEnd.RequestCoveredIff` | cmd/localproxyd/caddy_daemon.go:359-440 | end to end, for every run of the watchers, earlier certificate requests and map orders: a request for a host of a served name goes to the first such route, one certificate is picked for it, and that covers the host if and only if no write of it was cut short and the name fits |
| `EndToEnd.InternalNeverCovered` | internal/certs/mkcert.go:237-238 | the certificate picked for the dashboard's host "internal" never covers it |
| `EndToEnd.LocalhostContainerUncovered` | internal/certs/mkcert.go:237-238 | a container called "localhost" is stored and its route is not coverable |
| `EndToEnd.MovedProjectUncovered` | internal/registry/routes.go:105-110 | a run with an enabled mapped process whose route is not coverable, its mapping being for another folder |
| `TcpCertificates.LoadedIff` | internal/proxy/caddy.go:81-118 | a certificate is loaded under a tag if and only if an enabled route of that tag got one, or, for the dashboard's, it was there before |
| `TcpCertificates.TcpCertificateLoadedIff` | internal/proxy/caddy_l4.go:43-166 | every TLS connection to a TCP port goes to one route of that port, and the certificate asked for is loaded if and only if some enabled route with that tag got one, or it is the dashboard's and was there before; names may clash |
| `TcpCertificates.DisabledHasNoTcpPort` | internal/discovery/process.go:192-232 | in every run of the watchers a published route that is disabled has no TCP port |
| `TcpCertificates.ScansAreScanned` | internal/discovery/process.go:192-232 | the batches made of a scan meet what that asks of them |
| `TcpCertificates.TcpRouteServedIff` | internal/proxy/caddy_l4.go:43-166 | in every run of the watchers the route that a TLS connection to a TCP port is for is enabled, and its certificate is loaded if it was there or could be made, and only then unless another route shares its name |
| `TcpCertificates.RedisWithoutCertificate` | internal/proxy/caddy_l4.go:66-157 | with a redis outside the projects and no certificate that can be generated, a TLS connection to its port is proxied under a tag with no certificate |
| `Paths.FindBase` | internal/discovery/process.go:314-321 | some base path that the directory's text starts with, or none if there is none |
| `DisplayFolders.FirstMatchCounts` | internal/discovery/process.go:314-321 | of several base paths that match, the first one counts |
| `Paths.FiledUnderParentIff` | internal/discovery/process.go:234-262 | a directory is filed under ".." if and only if it does not lie in the base path |
| `Paths.MatchedBesideIff` | internal/discovery/process.go:314-321 | the directories matched by text that lie outside are exactly those whose name continues the base path's last component |
| `Scan.ScanState.TryWellKnown` | internal/discovery/process.go:192-212 | a service is found exactly on a well-known port not yet used, which it then uses |
| `Scan.ScanState.TryListeningProcess` | internal/discovery/process.go:214-232 | a service is found exactly for a process not yet seen, which is then seen and its port used |
| `Scan.ScanState.GetCwd` | internal/discovery/process.go:264-271 | the cached answer if there is one, otherwise the lookup's, which is then cached even when it failed |
| `Scan.ScanState.ClassifyListener` | internal/discovery/process.go:292-312 | by the kind of its directory a listener is ignored, tried as a process or tried as a well-known service |
| `Scan.ScanListeners` | internal/discovery/process.go:273-290 | the results are the services of the listeners that should yield one, in listener order |
| `Scan.AfterScanned` | internal/discovery/process.go:192-312 | classifying listener by listener, the ports used, processes seen, directories cached and services found are those that the plan of the whole scan assigns to the listeners so far |
| `ScanResults.ResultsDistinct` | internal/discovery/process.go:192-232 | results follow listener order; a process never yields services of both kinds or two project services; a well-known service never has the port of an earlier result |
| `ScanResults.ResultsComplete` | internal/discovery/process.go:273-312 | every project process is found at its first listener; every well-known port with a listener outside the projects is taken by some result |
| `ScanResults.ScanFeedsRegistry` | internal/discovery/process.go:192-232 | the two batches made of a scan satisfy what the registry's confluence asks of its batches |
| `ScanResults.ScansQualify` | internal/discovery/process.go:192-232 | a scan satisfies what exact change detection asks of it |
| `ChangeDetection.ProcessWatcher.IsServicesChanged` | internal/discovery/process.go:123-140 | unchanged exactly when the lengths agree and every listed process has its stored port |
| `ChangeDetection.ProcessWatcher.SetProcesses` | internal/discovery/process.go:142-152 | the stored map is the scan by process, later entries winning |
| `ChangeDetection.ProcessWatcher.GetNewTargets` | internal/discovery/process.go:154-168 | the endpoints of the processes not stored yet |
| `ChangeDetection.ProcessWatcher.MergeDiscovered` | internal/discovery/process.go:347-372 | protocol information is merged into the stored processes by endpoint, and all are announced exactly when one matched |
| `ChangeDetection.ProcessWatcher.Tick` | internal/discovery/process.go:96-118 | a scan that differs is stored and announced, and its new endpoints are to be fingerprinted; one that does not changes nothing |
| `ChangeDetection.ChangeDetectionExact` | internal/discovery/process.go:123-152 | a scan counts as unchanged if and only if its processes are distinct and its process-to-port map is the stored one |
| `ScanResults.ListedTwiceAlwaysChanged` | internal/discovery/process.go:123-152 | a scan of one process on two well-known ports lists it twice and counts as changed although nothing changed |
| `ChangeDetection.MergeKeepsPorts` | internal/discovery/process.go:355-364 | merging fingerprint results never changes the outcome of the next comparison |
| `WatcherRuns.PortsOfLastScan` | internal/discovery/process.go:96-152 | in every run of scans and merges the ports known are those of the last scan |
| `WatcherRuns.AnnouncedIff` | internal/discovery/process.go:96-140 | in every run a scan is announced if and only if it lists a process twice or its process-to-port map is not that of the scan before |
| `ChangeDetection.AnnouncementCompleteIff` | internal/discovery/process.go:364-372 | the announcement after fingerprinting has as many services as the scan if and only if no process was listed twice |
| `ScanResults.ListedTwiceAnnouncedOnce` | internal/discovery/process.go:364-372 | the announcement after fingerprinting that scan has fewer services than it |
| `Logs.SplitUnique` | internal/dashboard/logbuffer.go:256-270 | there is one way to cut a stream into complete lines and a rest without newline |
| `Logs.LinesJoined` | internal/dashboard/logbuffer.go:256-270 | the lines and the rest put together are the stream |
| `Logs.LinesComplete` | internal/dashboard/logbuffer.go:256-270 | every line ends in its only newline |
| `Logs.LinesAppended` | internal/dashboard/logbuffer.go:256-270 | cutting a stream anywhere changes neither its lines nor its rest |
| `Logs.TrimUnique` | internal/dashboard/logbuffer.go:265 | trimming finds the one text between white space that neither starts nor ends in any |
| `Logs.TrimSplits` | internal/dashboard/logbuffer.go:265 | every line is white space, its trimmed text, and white space |
| `Logs.LogBuffer.Add` | internal/dashboard/logbuffer.go:40-48 | the buffer is the last `max` of its old lines and the new one |
| `Logs.LogBuffer.GetLines` | internal/dashboard/logbuffer.go:50-57 | a copy of the lines |
| `Logs.DrainBuffer` | internal/dashboard/logbuffer.go:256-270 | it ends; the partial line stays in the stream; the buffer is the last `max` of its lines and the trimmed non-blank complete lines |
| `LogRuns.ContainerLog.ProcessLogBuffers` | internal/dashboard/logbuffer.go:246-248 | one tick drains the first stream, then the second |
| `LogRuns.Reassembly` | internal/dashboard/logbuffer.go:238-270 | in every run of writes and drains of two streams the lines added from a stream are the complete lines written before its last drain, trimmed and non-blank, and what is pending is the rest and what came since |
| `LogRuns.BufferIsSuffix` | internal/dashboard/logbuffer.go:40-48 | the buffer is the last `max` of all lines added in the run |
| `LogRuns.ChunkIndependence` | internal/dashboard/logbuffer.go:256-270 | two runs that drained the same bytes of a stream added the same lines from it |
| `LogRuns.PutBackKeepsOrderIff` | internal/dashboard/logbuffer.go:258-262 | putting a partial line back keeps the stream in order if and only if it and what arrived meanwhile repeat one text, as when one of them is empty; with a newline in what arrived, only if nothing was held |
| `LogRuns.RunInOrderIff` | internal/dashboard/logbuffer.go:256-270 | a run is in order after every call if and only if no call puts back a partial line that does not repeat one text with what had arrived since |
| `LogRuns.CommuteIff` | internal/dashboard/logbuffer.go:258-262 | two texts may be put together in either order if and only if both repeat one text |
| `LogRuns.InOrderReads` | internal/dashboard/logbuffer.go:256-270 | in every such run the lines read are the first lines of the stream |
| `LogRuns.UndisturbedInOrder` | internal/dashboard/logbuffer.go:256-270 | every run in which nothing arrives while a partial line is held is in order throughout |
| `LogRuns.WriteDuringDrainReorders` | internal/dashboard/logbuffer.go:258-262 | a run in which a line is read without its beginning |
| `ProjectStore.ScannedKeys` | internal/registry/store.go:95-105 | scanning the keys that were printed for ports gives the ports back |
| `ProjectStore.Store.AllocatePort` | internal/registry/store.go:86-112 | the smallest free port of the range is reserved; none exactly when all are taken or the write fails, and then nothing changes |
| `ProjectStore.Store.ReleasePort` | internal/registry/store.go:114-121 | the key of that port and no other is gone |
| `ProjectStore.Store.AddProject` | internal/registry/store.go:123-139 | the project is filed under its name; a nameless one is refused |
| `ProjectStore.Store.RemoveProject` | internal/registry/store.go:141-164 | the project is gone and, if it had a positive port, that key with it |
| `ProjectStore.Store.AddCommand` | cmd/localproxy/commands/add.go:40-64 | a known name changes nothing; otherwise a port is pinned or allocated and the project filed, the port staying reserved if filing fails |
| `ProjectStore.Store.AddSubdomainMapping` | internal/registry/store.go:216-232 | the mapping is stored under its directory; one without a directory is refused |
| `ProjectStore.Store.RemoveSubdomainMapping` | internal/registry/store.go:234-245 | the mapping of that directory is gone and every other stays |
| `ProjectStore.Store.GetMappingsForFolder` | internal/registry/store.go:247-268 | exactly the stored mappings of the folder |
| `ProjectStore.Store.GetMappingSubdomainsByCwd` | internal/registry/store.go:313-323 | what the dashboard lists for a folder is, directory by directory, what a lookup by directory finds |
| `StoreRuns.AutomaticPortsDistinct` | internal/registry/store.go:86-164 | over every run with pins outside the range, whatever writes fail, automatic ports are pairwise distinct and reserved |
| `StoreRuns.BucketExactIff` | internal/registry/store.go:86-164 | over every such run the bucket is exactly the held automatic ports if and only if no command leaked a port |
| `StoreRuns.NamelessProjectLeaks` | cmd/localproxy/commands/add.go:40-64 | adding a project without a name reserves a port that no project holds |
| `StoreRuns.BucketExactWhenWritesSucceed` | cmd/localproxy/commands/add.go:40-64 | with named projects and successful writes the bucket, scanned, is exactly the held automatic ports |
| `StoreRuns.LostForGood` | internal/registry/store.go:86-164 | a reserved port that no project holds stays reserved and unheld in every step |
| `StoreRuns.PinKeepsExactIff` | cmd/localproxy/commands/add.go:46-64 | pinning a port keeps the bucket exact if and only if it is outside the automatic range |
| `StoreRuns.PinnedPortHandedOut` | cmd/localproxy/commands/add.go:46-52 | a run in which a pinned port is handed out again and one removal releases it for both |
| `StoreRuns.AllocationMeaning` | internal/registry/store.go:102-108 | the port handed out is the smallest that no project holds, in terms of the projects alone |
| `StoreRuns.AllocationFailsIff` | internal/registry/store.go:102-108 | allocation fails if and only if 10001 registered projects have automatic ports |
| `StoreRuns.AddThenRemove` | internal/registry/store.go:86-164 | adding a project and removing it gives the store back |
| `Decimal.ScanPrint` | internal/registry/store.go:95-105 | scanning what was printed gives the number back |
| `Names.IsValidSubdomain` | internal/dashboard/server.go:798-815 | accepts exactly the lower-case labels of RFC 1035 section 2.3.1, relaxed by RFC 1123 section 2.1, of at most 63 characters |
| `Names.DetectedIff` | internal/dashboard/server.go:168-200 | a folder is detected if and only if it is a group, has no dot, and the host without its port is the folder or a name under it with either suffix |
| `Names.MappedHostDecodedIff` | internal/dashboard/server.go:168-200 | the host of a mapped name, with either suffix and any port, is read back to its folder if and only if the folder has no dot and no colon |
| `Names.DottedFolderNotDetected` | internal/dashboard/server.go:168-200 | the host of a mapped process of a folder with a dot is read back to no folder |
| `Dashboard.DashboardServer.UpdateBackends` | internal/dashboard/server.go:228-238 | the table of the batch by name, the last of a name winning |
| `Dashboard.DashboardServer.ServeDashboard` | internal/dashboard/server.go:322-435 | the page is the table's backends shelved, sorted by name and grouped by display folder |
| `Dashboard.CountFolders` | internal/dashboard/server.go:391-406 | each count is the number of processes that show the folder |
| `Dashboard.GroupProcesses` | internal/dashboard/server.go:408-431 | one group per folder that several processes show, with all of them, and the rest ungrouped |
| `DashboardPage.TableKeepsAllIff` | internal/dashboard/server.go:228-238 | the table has every backend of a batch if and only if no two different ones carry one name |
| `DashboardPage.ClashLosesBackend` | internal/dashboard/server.go:228-238 | whenever a service is stored under the name of a shared folder the table lacks one of the two backends of that name |
| `DashboardPage.ShelvesShareOut` | internal/dashboard/server.go:339-377 | every backend is on exactly one shelf |
| `DashboardPage.GroupsConserve` | internal/dashboard/server.go:408-431 | the nested loops neither lose nor repeat a process |
| `DashboardPage.PageConserves` | internal/dashboard/server.go:322-435 | the parts of the page add up to the table, with multiplicity |
| `DashboardPage.GroupsMean` | internal/dashboard/server.go:408-431 | groups have distinct folders, at least two members, and exactly the processes that show the folder |
| `DashboardPage.UngroupedIff` | internal/dashboard/server.go:412-431 | a process is ungrouped if and only if it shows no folder or is the only one to show it |
| `DashboardPage.PageIndependentOfWalk` | internal/dashboard/server.go:326-435 | the page is the same whatever the order in which the table is walked |
| `DisplayFolders.TrimsFoundBase` | internal/dashboard/server.go:307-314 | the dashboard trims the base path that the scan found |
| `DisplayFolders.ShownInside` | internal/dashboard/server.go:391-398 | inside a base path the dashboard shows the first component under it, and none for the base path itself |
| `DisplayFolders.ShownBeside` | internal/dashboard/server.go:391-398 | beside a base path the dashboard shows the rest of the name that continues the base path's last component |
| `DisplayFolders.ShownAsFiledIff` | internal/dashboard/server.go:391-398 | for every directory that a base path matches, shown and filed folder agree if and only if, inside the base path, the first component on the way is no ignored directory or there is none, and beside it, the name is the base path's with two dots appended |
| `DisplayFolders.BesideShownOtherwise` | internal/dashboard/server.go:391-398 | a process beside a base path is shown under the rest of its name and filed under ".." |
| `DisplayFolders.MonorepoShownOtherwise` | internal/discovery/process.go:234-262 | a process in an ignored directory is shown under that one and filed under the next |
| `Sorting.AscendingUnique` | internal/dashboard/server.go:363-385 | distinct keys leave one sorted order, so the sorting algorithm does not matter |

## Left out

- HTTP handlers, templates, event streams, JSON encoding and notifications: plumbing around the modelled cores.
- The embedded proxy server, the container client, the database, the capture and fingerprinting programs and the DNS server: foreign code; database buckets are maps, host and server name matching is string equality with first match, so letter case is not modelled.
- Key generation, signing, trust stores and the contents of certificate files: a file records what it was written for, and each request says whether its writes succeed, fail or are cut short.
- Certificate keys with a path separator or dot components: file names are compared as text, without path cleaning.
- Packet parsing, socket and process table parsing, and the directory lookup: listeners and lookup answers are inputs of the scan.
- Base paths and directories as text that is not clean or not absolute: a path is a sequence of components and `filepath.Rel` works on those; the dashboard gets the base paths as they were configured, which is the same when they were absolute and clean.
- Container events, health polling, timers and retries: their outcome reaches the model as batches and single updates.
- The daemon without a capture: `updatePacketSubscriptions` then returns at once and touches nothing.
- The goroutines that move packets from a subscription to its buffer: a packet reaches the buffer as a step of `Viewer`.
- Sharing of process records between a batch and the folder groups: the groups hold the records as they were when the batch arrived, so flags set by resolving are not seen through them; `RegistryRuns.ResolvedTwiceIff` states what a second resolving does to a record.
- Locks other than those of the registry and the store; the work done while routes are published counts as part of the step that holds the registry's lock.
- The outcome of probes and their retries: `ProbeRuns` has their start and end only, endpoint by endpoint.
- Atomicity inside `bytes.Buffer`: each call on the stream is one step in `LogRuns`, although the buffer is not made for concurrent use.
- Tracing of local processes and the table of log buffers by key: each container log is modelled on its own.
- Recent log lines and shortened paths on the dashboard, unrouted containers and the list of inactive well-known services: display only.
- Handlers that are configured but never differ, such as the redirect to HTTPS and ALPN values: they do not affect which route is chosen.
- `sort.Slice` is modelled by insertion sort; keys are distinct here, so any correct sort gives the same result.
