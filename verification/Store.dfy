/** The project store, bbolt buckets as sets and maps: automatic ports, projects
    and subdomain mappings. What runs of commands keep is in StoreRuns. */
module ProjectStore {
  import opened Basics
  import opened Discovered
  import opened Decimal

  const MIN_PORT := 10000
  const MAX_PORT := 20000

  datatype Project = Project(name: string, subdomain: string, port: int, path: string)

  datatype State = State(projects: map<string, Project>, ports: set<string>)

  predicate Automatic(port: int) { MIN_PORT <= port <= MAX_PORT }

  /** Ports in the automatic range that some registered project holds. */
  function HeldPorts(projects: map<string, Project>): set<int> {
    set n | n in projects && Automatic(projects[n].port) :: projects[n].port
  }

  /** Bucket keys for a set of ports. */
  function Keys(ports: set<int>): set<string> {
    set p | p in ports :: Print(p)
  }

  function ScannedPorts(bucket: set<string>): set<int> {
    set k | k in bucket :: Scan(k)
  }

  function FreePorts(bucket: set<string>): set<int> {
    set p | MIN_PORT <= p <= MAX_PORT && p !in ScannedPorts(bucket)
  }

  /** `p` is what an allocation from `bucket` should hand out. */
  ghost predicate SmallestFree(bucket: set<string>, p: int) {
    p in FreePorts(bucket) && forall q :: q in FreePorts(bucket) ==> p <= q
  }

  ghost function Allocation(bucket: set<string>): (r: Option<int>)
    ensures r.None? <==> FreePorts(bucket) == {}
    ensures r.Some? ==> SmallestFree(bucket, r.value)
  {
    FirstFree(bucket, MIN_PORT)
  }

  ghost function FirstFree(bucket: set<string>, p: int): (r: Option<int>)
    requires MIN_PORT <= p
    requires forall q :: MIN_PORT <= q < p ==> q in ScannedPorts(bucket)
    ensures r.None? <==> FreePorts(bucket) == {}
    ensures r.Some? ==> SmallestFree(bucket, r.value)
    decreases MAX_PORT - p
  {
    if p > MAX_PORT then None
    else if p !in ScannedPorts(bucket) then (assert p in FreePorts(bucket); Some(p))
    else FirstFree(bucket, p + 1)
  }

  /** A transaction on the store, or a command made of several, with the outcome
      of the writes it attempts. */
  datatype Command =
    | Add(name: string, subdomain: string, pinned: int, path: string, reserved: bool, written: bool)
    | Remove(name: string, deleted: bool, released: bool)
  {
    predicate Succeeds() {
      match this
      case Add(name, _, _, _, reserved, written) => name != "" && reserved && written
      case Remove(_, deleted, released) => deleted && released
    }
  }

  ghost function Step(st: State, c: Command): State {
    match c
    case Add(name, subdomain, pinned, path, reserved, written) =>
      if name in st.projects then st
      else if pinned != 0 then Registered(st, Project(name, subdomain, pinned, path), written)
      else
        var port := Allocation(st.ports);
        if port.None? || !reserved then st
        else Registered(st.(ports := st.ports + {Print(port.value)}),
                        Project(name, subdomain, port.value, path), written)
    case Remove(name, deleted, released) =>
      if !deleted then st
      else Unregistered(st, name, released)
  }

  /** A bbolt key may not be empty: putting a nameless project is an error. */
  function Registered(st: State, p: Project, written: bool): State {
    if p.name == "" || !written then st else st.(projects := st.projects[p.name := p])
  }

  function Unregistered(st: State, name: string, released: bool): State {
    var port := if name in st.projects then st.projects[name].port else 0;
    State(st.projects - {name}, if port > 0 && released then st.ports - {Print(port)} else st.ports)
  }

  lemma {:induction false} ScannedKeys(ports: set<int>)
    ensures ScannedPorts(Keys(ports)) == ports
  {
    forall p | p in ports ensures p in ScannedPorts(Keys(ports)) {
      ScanPrint(p);
      assert Print(p) in Keys(ports);
    }
    forall q | q in ScannedPorts(Keys(ports)) ensures q in ports {
      var k :| k in Keys(ports) && Scan(k) == q;
      var p :| p in ports && Print(p) == k;
      ScanPrint(p);
    }
  }

  class Store {
    var projects: map<string, Project>
    /** Keys of the ports bucket; every value in it is "1". */
    var ports: set<string>
    /** Keyed by working directory. */
    var mappings: map<string, Mapping>

    constructor ()
      ensures View() == State(map[], {}) && mappings == map[]
    {
      projects, ports, mappings := map[], {}, map[];
    }

    ghost function View(): State
      reads this
    { State(projects, ports) }

    method AllocatePort(reserved: bool) returns (r: Option<int>)
      modifies this`ports
      ensures r == if reserved then Allocation(old(ports)) else None
      ensures ports == if r.Some? then old(ports) + {Print(r.value)} else old(ports)
    {
      var used: set<int> := {};
      var unread := ports;
      while unread != {}
        invariant ports == old(ports) && unread <= ports && used == ScannedPorts(ports - unread)
        decreases |unread|
      {
        var k :| k in unread;
        ScannedMore(ports - unread, k);
        assert ports - (unread - {k}) == ports - unread + {k};
        unread := unread - {k};
        used := used + {Scan(k)};
      }
      assert ports - unread == ports;
      for p := MIN_PORT to MAX_PORT + 1
        invariant forall q :: MIN_PORT <= q < p ==> q in ScannedPorts(ports)
        invariant ports == old(ports) && used == ScannedPorts(ports)
      {
        if p !in used {
          assert SmallestFree(ports, p);
          if !reserved {
            return None;
          }
          ports := ports + {Print(p)};
          return Some(p);
        }
      }
      return None;
    }

    method ReleasePort(port: int, released: bool)
      modifies this`ports
      ensures ports == if released then old(ports) - {Print(port)} else old(ports)
    {
      if released {
        ports := ports - {Print(port)};
      }
    }

    method AddProject(p: Project, written: bool) returns (ok: bool)
      modifies this`projects
      ensures ok == (p.name != "" && written)
      ensures View() == Registered(old(View()), p, written)
    {
      if p.name == "" || !written {
        return false;
      }
      projects := projects[p.name := p];
      return true;
    }

    method RemoveProject(name: string, deleted: bool, released: bool) returns (ok: bool)
      modifies this`projects, this`ports
      ensures ok == deleted
      ensures View() == Step(old(View()), Remove(name, deleted, released))
    {
      if !deleted {
        return false;
      }
      var port := 0;
      if name in projects {
        port := projects[name].port;
      }
      projects := projects - {name};
      if port > 0 {
        ReleasePort(port, released);
      }
      return true;
    }

    /** The `add` command, from the configuration of a project directory. */
    method AddCommand(name: string, subdomain: string, pinned: int, path: string, reserved: bool, written: bool)
      modifies this`projects, this`ports
      ensures View() == Step(old(View()), Add(name, subdomain, pinned, path, reserved, written))
    {
      if name in projects {
        return;
      }
      var port := pinned;
      if port == 0 {
        var granted := AllocatePort(reserved);
        if granted.None? {
          return;
        }
        port := granted.value;
      }
      var _ := AddProject(Project(name, subdomain, port, path), written);
    }

    method AddSubdomainMapping(m: Mapping, written: bool) returns (ok: bool)
      modifies this`mappings
      ensures ok == (m.cwd != "" && written)
      ensures mappings == if ok then old(mappings)[m.cwd := m] else old(mappings)
      ensures KeyedByCwd(old(mappings)) ==> KeyedByCwd(mappings)
    {
      if m.cwd == "" || !written {
        return false;
      }
      mappings := mappings[m.cwd := m];
      return true;
    }

    method RemoveSubdomainMapping(cwd: string, deleted: bool)
      modifies this`mappings
      ensures mappings == if deleted then old(mappings) - {cwd} else old(mappings)
      ensures KeyedByCwd(old(mappings)) ==> KeyedByCwd(mappings)
    {
      if deleted {
        mappings := mappings - {cwd};
      }
    }

    method GetMappingByCwd(cwd: string) returns (m: Option<Mapping>)
      ensures m == if cwd in mappings then Some(mappings[cwd]) else None
    {
      m := if cwd in mappings then Some(mappings[cwd]) else None;
    }

    /** The mappings of a folder, in the order in which the bucket is walked. */
    method GetMappingsForFolder(folder: string, bucket: seq<string>) returns (found: seq<Mapping>)
      requires Enumerates(bucket, mappings.Keys)
      ensures forall m :: m in found <==> exists cwd :: cwd in mappings && mappings[cwd] == m && m.folderGroup == folder
    {
      found := [];
      for i := 0 to |bucket|
        invariant forall m :: m in found <==>
          exists k :: 0 <= k < i && mappings[bucket[k]] == m && m.folderGroup == folder
      {
        assert bucket[i] in mappings;
        if mappings[bucket[i]].folderGroup == folder {
          found := found + [mappings[bucket[i]]];
        }
      }
      assert forall cwd :: cwd in mappings ==> exists k :: 0 <= k < |bucket| && bucket[k] == cwd;
    }

    /** What the captive portal of a folder lists is, directory by directory,
        what the registry looks a directory up to. */
    method GetMappingSubdomainsByCwd(folder: string, bucket: seq<string>) returns (r: map<string, string>)
      requires Enumerates(bucket, mappings.Keys) && KeyedByCwd(mappings)
      ensures forall cwd :: cwd in r <==> cwd in mappings && mappings[cwd].folderGroup == folder
      ensures forall cwd :: cwd in r ==> r[cwd] == mappings[cwd].subdomain
    {
      var found := GetMappingsForFolder(folder, bucket);
      r := map[];
      for i := 0 to |found|
        invariant forall cwd :: cwd in r <==> exists k :: 0 <= k < i && found[k].cwd == cwd
        invariant forall k :: 0 <= k < i ==> found[k].cwd in r && r[found[k].cwd] == mappings[found[k].cwd].subdomain
      {
        assert found[i] in found;
        r := r[found[i].cwd := found[i].subdomain];
      }
      forall cwd | cwd in mappings && mappings[cwd].folderGroup == folder ensures cwd in r {
        assert mappings[cwd] in found;
      }
      forall cwd | cwd in r ensures cwd in mappings && mappings[cwd].folderGroup == folder {
        var k :| 0 <= k < |found| && found[k].cwd == cwd;
        assert found[k] in found;
      }
    }
  }

  ghost predicate KeyedByCwd(mappings: map<string, Mapping>) {
    forall cwd :: cwd in mappings ==> mappings[cwd].cwd == cwd
  }

  lemma {:induction false} ScannedMore(bucket: set<string>, k: string)
    ensures ScannedPorts(bucket + {k}) == ScannedPorts(bucket) + {Scan(k)}
  {
    forall p | p in ScannedPorts(bucket) + {Scan(k)} ensures p in ScannedPorts(bucket + {k}) {
      if p != Scan(k) {
        var j :| j in bucket && Scan(j) == p;
        assert j in bucket + {k};
      } else {
        assert k in bucket + {k};
      }
    }
  }
}
