/** Runs of add and remove commands over the store. */
module StoreRuns {
  import opened Basics
  import opened Decimal
  import opened ProjectStore

  ghost function Run(st: State, run: seq<Command>): State {
    if run == [] then st else Step(Run(st, run[..|run| - 1]), run[|run| - 1])
  }

  ghost function After(run: seq<Command>): State { Run(State(map[], {}), run) }

  /** No port of the automatic range is pinned by a project's configuration. */
  ghost predicate PinsOutside(run: seq<Command>) {
    forall c :: c in run ==> Outside(c)
  }

  predicate Outside(c: Command) { c.Add? ==> !Automatic(c.pinned) }

  /** Projects are filed under their own names, no two of them share an automatic
      port, and each automatic port held is reserved in the bucket. */
  ghost predicate Sound(st: State) {
    && (forall n :: n in st.projects ==> n != "" && st.projects[n].name == n)
    && (forall m, n :: m in st.projects && n in st.projects && m != n && Automatic(st.projects[m].port) ==>
          st.projects[m].port != st.projects[n].port)
    && (forall n :: n in st.projects && Automatic(st.projects[n].port) ==> Print(st.projects[n].port) in st.ports)
    && (forall k :: k in st.ports ==> exists p :: Automatic(p) && k == Print(p))
  }

  /** The bucket holds the held automatic ports and nothing else. */
  ghost predicate Exact(st: State) {
    Sound(st) && st.ports == Keys(HeldPorts(st.projects))
  }

  lemma {:induction false} PrintedIn(ports: set<int>, p: int)
    ensures Print(p) in Keys(ports) <==> p in ports
  {
    if Print(p) in Keys(ports) {
      var q :| q in ports && Print(q) == Print(p);
      PrintInjective(p, q);
    }
  }

  /** An automatic port is free to the allocator exactly when its key is absent. */
  lemma {:induction false} FreeIffAbsent(st: State, p: int)
    requires Sound(st) && Automatic(p)
    ensures p in FreePorts(st.ports) <==> Print(p) !in st.ports
  {
    ScanPrint(p);
    if p in ScannedPorts(st.ports) {
      var k :| k in st.ports && Scan(k) == p;
      var q :| Automatic(q) && k == Print(q);
      ScanPrint(q);
    }
  }

  lemma {:induction false} StepSound(st: State, c: Command)
    requires Sound(st) && Outside(c)
    ensures Sound(Step(st, c))
  {
    match c
    case Add(name, subdomain, pinned, path, reserved, written) =>
      if name !in st.projects {
        if pinned != 0 {
          RegisteredSound(st, Project(name, subdomain, pinned, path), written);
        } else if Allocation(st.ports).Some? && reserved {
          var port := Allocation(st.ports).value;
          FreeIffAbsent(st, port);
          ReservedSound(st, port);
          RegisteredSound(st.(ports := st.ports + {Print(port)}), Project(name, subdomain, port, path), written);
        }
      }
    case Remove(name, deleted, released) =>
      UnregisteredSound(st, name, released);
  }

  lemma {:induction false} ReservedSound(st: State, port: int)
    requires Sound(st) && Automatic(port) && Print(port) !in st.ports
    ensures Sound(st.(ports := st.ports + {Print(port)}))
    ensures forall n :: n in st.projects ==> st.projects[n].port != port
  {}

  lemma {:induction false} RegisteredSound(st: State, p: Project, written: bool)
    requires Sound(st) && p.name !in st.projects
    requires Automatic(p.port) ==> Print(p.port) in st.ports
    requires Automatic(p.port) ==> forall n :: n in st.projects ==> st.projects[n].port != p.port
    ensures Sound(Registered(st, p, written))
  {}

  lemma {:induction false} UnregisteredSound(st: State, name: string, released: bool)
    requires Sound(st)
    ensures Sound(Unregistered(st, name, released))
  {
    var st' := Unregistered(st, name, released);
    if name in st.projects {
      var port := st.projects[name].port;
      forall n | n in st'.projects && Automatic(st'.projects[n].port)
        ensures Print(st'.projects[n].port) in st'.ports
      {
        if Print(st.projects[n].port) == Print(port) {
          PrintInjective(st.projects[n].port, port);
        }
      }
    }
  }

  /** Whatever writes fail: over every run that pins only ports outside the
      automatic range, automatic ports are pairwise distinct and reserved. */
  lemma {:induction false} AutomaticPortsDistinct(run: seq<Command>)
    requires PinsOutside(run)
    ensures Sound(After(run))
  {
    if run != [] {
      AutomaticPortsDistinct(run[..|run| - 1]);
      StepSound(After(run[..|run| - 1]), run[|run| - 1]);
    }
  }

  /** A command that reserves a port and then fails to file the project, or files
      a removal and then fails to release the port. */
  ghost predicate Leaks(st: State, c: Command) {
    match c
    case Add(name, _, pinned, _, reserved, written) =>
      && name !in st.projects && pinned == 0 && reserved && Allocation(st.ports).Some?
      && (name == "" || !written)
    case Remove(name, deleted, released) =>
      name in st.projects && Automatic(st.projects[name].port) && deleted && !released
  }

  lemma {:induction false} HeldMore(projects: map<string, Project>, name: string, p: Project)
    requires name !in projects
    ensures HeldPorts(projects[name := p]) == HeldPorts(projects) + if Automatic(p.port) then {p.port} else {}
  {
    var projects' := projects[name := p];
    forall q ensures q in HeldPorts(projects') <==> q in HeldPorts(projects) || (Automatic(p.port) && q == p.port) {
      if q in HeldPorts(projects) {
        var n :| n in projects && Automatic(projects[n].port) && projects[n].port == q;
        assert n in projects' && projects'[n].port == q;
      }
      if Automatic(p.port) && q == p.port {
        assert name in projects' && projects'[name].port == q;
      }
    }
  }

  lemma {:induction false} KeysMore(ports: set<int>, p: int)
    ensures Keys(ports + {p}) == Keys(ports) + {Print(p)}
  {
    forall k | k in Keys(ports) + {Print(p)} ensures k in Keys(ports + {p}) {
      if k in Keys(ports) {
        var q :| q in ports && Print(q) == k;
        assert q in ports + {p};
      } else {
        assert p in ports + {p};
      }
    }
  }

  lemma {:induction false} KeysFewer(ports: set<int>, p: int)
    ensures Keys(ports - {p}) == Keys(ports) - {Print(p)}
  {
    forall k ensures k in Keys(ports - {p}) <==> k in Keys(ports) - {Print(p)} {
      if k in Keys(ports) {
        var q :| q in ports && Print(q) == k;
        if q == p {
          PrintedIn(ports - {p}, p);
        } else {
          assert q in ports - {p};
          if k == Print(p) { PrintInjective(p, q); }
        }
      }
    }
  }

  /** With pins outside the range, the bucket stays exactly the held ports unless
      the command leaks, and then it does not. */
  lemma {:induction false} ExactUnlessLeak(st: State, c: Command)
    requires Exact(st) && Outside(c)
    ensures Exact(Step(st, c)) <==> !Leaks(st, c)
  {
    StepSound(st, c);
    match c
    case Add(name, subdomain, pinned, path, reserved, written) =>
      AddExact(st, c);
    case Remove(name, deleted, released) =>
      RemoveExact(st, c);
  }

  lemma {:induction false} AddExact(st: State, c: Command)
    requires Exact(st) && Outside(c) && c.Add? && Sound(Step(st, c))
    ensures Exact(Step(st, c)) <==> !Leaks(st, c)
  {
    var held := HeldPorts(st.projects);
    if c.name !in st.projects {
      if c.pinned != 0 {
        HeldMore(st.projects, c.name, Project(c.name, c.subdomain, c.pinned, c.path));
      } else if Allocation(st.ports).Some? && c.reserved {
        var port := Allocation(st.ports).value;
        FreeIffAbsent(st, port);
        HeldMore(st.projects, c.name, Project(c.name, c.subdomain, port, c.path));
        KeysMore(held, port);
        PrintedIn(held, port);
      }
    }
  }

  lemma {:induction false} HeldFewer(st: State, name: string)
    requires Sound(st) && name in st.projects
    ensures HeldPorts(st.projects - {name}) == HeldPorts(st.projects) - {st.projects[name].port}
  {
    var p := st.projects[name];
    var rest := st.projects - {name};
    assert st.projects == rest[name := p];
    HeldMore(rest, name, p);
    forall n | n in rest && Automatic(rest[n].port) ensures rest[n].port != p.port {}
    assert p.port !in HeldPorts(rest);
  }

  lemma {:induction false} RemoveExact(st: State, c: Command)
    requires Exact(st) && c.Remove? && Sound(Step(st, c))
    ensures Exact(Step(st, c)) <==> !Leaks(st, c)
  {
    if c.deleted && c.name in st.projects {
      var held, port := HeldPorts(st.projects), st.projects[c.name].port;
      HeldFewer(st, c.name);
      KeysFewer(held, port);
      PrintedIn(held - {port}, port);
      PrintedIn(held, port);
      assert port in held <==> Automatic(port);
      assert Step(st, c).ports == if port > 0 && c.released then Keys(held) - {Print(port)} else Keys(held);
    } else {
      assert st.projects - {c.name} == st.projects || !c.deleted;
    }
  }

  /** A reserved port that no project holds is lost for good. */
  lemma {:induction false} LostForGood(st: State, c: Command, p: int)
    requires Sound(st) && Outside(c)
    requires Automatic(p) && Print(p) in st.ports && forall n :: n in st.projects ==> st.projects[n].port != p
    ensures Print(p) in Step(st, c).ports
    ensures forall n :: n in Step(st, c).projects ==> Step(st, c).projects[n].port != p
  {
    FreeIffAbsent(st, p);
    if c.Remove? && c.name in st.projects && Print(p) == Print(st.projects[c.name].port) {
      PrintInjective(p, st.projects[c.name].port);
    }
  }

  lemma {:induction false} Lost(st: State)
    requires Sound(st)
    ensures !Exact(st) <==>
              exists p :: Automatic(p) && Print(p) in st.ports
                          && forall n :: n in st.projects ==> st.projects[n].port != p
  {
    var held := HeldPorts(st.projects);
    forall k | k in Keys(held) ensures k in st.ports {
      var p :| p in held && Print(p) == k;
    }
    forall p ensures Print(p) in Keys(held) <==> p in held { PrintedIn(held, p); }
    if st.ports != Keys(held) {
      var k :| k in st.ports && k !in Keys(held);
      var p :| Automatic(p) && k == Print(p);
      assert p !in held;
    }
  }

  lemma {:induction false} ExactStep(st: State, c: Command)
    requires Sound(st) && Outside(c)
    ensures Exact(Step(st, c)) <==> Exact(st) && !Leaks(st, c)
  {
    if Exact(st) {
      ExactUnlessLeak(st, c);
    } else {
      StepSound(st, c);
      Lost(st);
      var p :| Automatic(p) && Print(p) in st.ports && forall n :: n in st.projects ==> st.projects[n].port != p;
      LostForGood(st, c, p);
      Lost(Step(st, c));
    }
  }

  /** No command of the run leaks in the state it meets. */
  ghost predicate LeakFree(run: seq<Command>) {
    run == [] || (LeakFree(run[..|run| - 1]) && !Leaks(After(run[..|run| - 1]), run[|run| - 1]))
  }

  /** Over whole runs that pin only ports outside the automatic range: the bucket
      is exactly the held automatic ports if and only if no command ever leaked. */
  lemma {:induction false} BucketExactIff(run: seq<Command>)
    requires PinsOutside(run)
    ensures Exact(After(run)) <==> LeakFree(run)
  {
    if run == [] {
      assert HeldPorts(map[]) == {};
    } else {
      var before := run[..|run| - 1];
      BucketExactIff(before);
      AutomaticPortsDistinct(before);
      ExactStep(After(before), run[|run| - 1]);
    }
  }

  lemma {:induction false} SuccessLeaksNothing(run: seq<Command>)
    requires forall c :: c in run ==> c.Succeeds()
    ensures LeakFree(run)
  {
    if run != [] {
      assert run[|run| - 1] in run;
      SuccessLeaksNothing(run[..|run| - 1]);
    }
  }

  /** The case of the command line: every write succeeds and every project is named. */
  lemma {:induction false} BucketExactWhenWritesSucceed(run: seq<Command>)
    requires PinsOutside(run) && forall c :: c in run ==> c.Succeeds()
    ensures Exact(After(run))
    ensures ScannedPorts(After(run).ports) == HeldPorts(After(run).projects)
  {
    SuccessLeaksNothing(run);
    BucketExactIff(run);
    ScannedKeys(HeldPorts(After(run).projects));
  }

  /** Pinning keeps the bucket exact if and only if the pin is outside the range. */
  lemma {:induction false} PinKeepsExactIff(st: State, c: Command)
    requires Exact(st) && c.Add? && c.name !in st.projects && c.name != "" && c.pinned != 0 && c.written
    ensures Exact(Step(st, c)) <==> !Automatic(c.pinned)
  {
    if Automatic(c.pinned) {
      PinCollides(st, c);
    } else {
      ExactUnlessLeak(st, c);
    }
  }

  lemma {:induction false} PinCollides(st: State, c: Command)
    requires Exact(st) && c.Add? && c.name !in st.projects && c.name != "" && c.pinned != 0 && c.written
    requires Automatic(c.pinned)
    ensures !Exact(Step(st, c))
  {
    var held := HeldPorts(st.projects);
    PrintedIn(held, c.pinned);
    var st' := Step(st, c);
    assert c.name in st'.projects && st'.projects[c.name].port == c.pinned;
    if c.pinned in held {
      var n :| n in st.projects && Automatic(st.projects[n].port) && st.projects[n].port == c.pinned;
      assert n in st'.projects && st'.projects[n].port == c.pinned;
    } else {
      assert Print(c.pinned) !in st'.ports;
    }
  }

  /** The pinned port 10000 is handed out again to the next project, and removing
      either project releases it while the other still holds it. */
  lemma {:induction false} PinnedPortHandedOut(a: string, b: string)
    requires a != "" && b != "" && a != b
    ensures var st := After([Add(a, a, MIN_PORT, "", true, true), Add(b, b, 0, "", true, true)]);
            && a in st.projects && b in st.projects
            && st.projects[a].port == st.projects[b].port == MIN_PORT
            && Step(st, Remove(a, true, true)).ports == {}
  {
    var c0, c1 := Add(a, a, MIN_PORT, "", true, true), Add(b, b, 0, "", true, true);
    var st0: State := State(map[], {});
    assert [c0, c1][..1] == [c0] && [c0, c1][1] == c1 && [c0][..0] == [];
    var st1 := Step(st0, c0);
    assert Run(st0, []) == st0;
    assert After([c0]) == Step(Run(st0, []), c0);
    assert MIN_PORT in FreePorts(st1.ports);
    assert Allocation(st1.ports) == Some(MIN_PORT);
  }

  /** What an allocation hands out, in terms of the projects alone. */
  lemma {:induction false} AllocationMeaning(st: State)
    requires Exact(st)
    ensures match Allocation(st.ports)
            case Some(p) => Automatic(p) && p !in HeldPorts(st.projects)
                            && forall q :: MIN_PORT <= q < p ==> q in HeldPorts(st.projects)
            case None => forall q :: Automatic(q) ==> q in HeldPorts(st.projects)
  {
    var held := HeldPorts(st.projects);
    ScannedKeys(held);
    FreeAre(st.ports, held);
  }

  lemma {:induction false} FreeAre(bucket: set<string>, held: set<int>)
    requires ScannedPorts(bucket) == held
    ensures match Allocation(bucket)
            case Some(p) => Automatic(p) && p !in held && forall q :: MIN_PORT <= q < p ==> q in held
            case None => forall q :: Automatic(q) ==> q in held
  {
    forall q | Automatic(q) && q !in held ensures q in FreePorts(bucket) {}
  }

  function AutomaticProjects(projects: map<string, Project>): set<string> {
    set n | n in projects && Automatic(projects[n].port)
  }

  function Span(lo: int, hi: int): (r: set<int>)
    ensures forall p :: p in r <==> lo <= p < hi
    ensures lo <= hi ==> |r| == hi - lo
    decreases hi - lo
  {
    if lo >= hi then {} else {lo} + Span(lo + 1, hi)
  }

  lemma {:induction false} NoneHeld(projects: map<string, Project>)
    requires AutomaticProjects(projects) == {}
    ensures HeldPorts(projects) == {}
  {
    forall n | n in projects ensures !Automatic(projects[n].port) {
      assert n !in AutomaticProjects(projects);
    }
  }

  lemma {:induction false} HeldCount(st: State)
    requires Sound(st)
    ensures |HeldPorts(st.projects)| == |AutomaticProjects(st.projects)|
    decreases |AutomaticProjects(st.projects)|
  {
    var names := AutomaticProjects(st.projects);
    if names == {} {
      NoneHeld(st.projects);
    } else {
      var n :| n in names;
      var rest := State(st.projects - {n}, st.ports);
      HeldFewer(st, n);
      assert AutomaticProjects(rest.projects) == names - {n};
      HeldCount(rest);
      assert st.projects[n].port in HeldPorts(st.projects);
    }
  }

  /** Allocation fails only when all 10001 ports belong to registered projects. */
  lemma {:induction false} AllocationFailsIff(st: State)
    requires Exact(st)
    ensures Allocation(st.ports).None? <==> |AutomaticProjects(st.projects)| == 10001
    ensures |AutomaticProjects(st.projects)| <= 10001
  {
    HeldCount(st);
    ScannedKeys(HeldPorts(st.projects));
    HeldRange(st.ports, HeldPorts(st.projects));
    SubsetSize(HeldPorts(st.projects), Span(MIN_PORT, MAX_PORT + 1));
  }

  lemma {:induction false} HeldRange(bucket: set<string>, held: set<int>)
    requires ScannedPorts(bucket) == held && forall p :: p in held ==> Automatic(p)
    ensures held <= Span(MIN_PORT, MAX_PORT + 1)
    ensures Allocation(bucket).None? <==> held == Span(MIN_PORT, MAX_PORT + 1)
  {
    FreeAre(bucket, held);
    var range, a := Span(MIN_PORT, MAX_PORT + 1), Allocation(bucket);
    if a.Some? {
      assert a.value in range;
    } else {
      assert forall q :: q in range ==> q in held;
    }
  }

  lemma {:induction false} SubsetSize<T>(s: set<T>, t: set<T>)
    requires s <= t
    ensures |s| <= |t|
    ensures |s| == |t| <==> s == t
  {
    assert t == s + (t - s);
    assert |t| == |s| + |t - s|;
    assert |t - s| == 0 <==> t - s == {};
  }

  lemma {:induction false} AddedGone(st: State, name: string, p: Project)
    requires name !in st.projects && Print(p.port) !in st.ports && p.port > 0
    ensures Unregistered(State(st.projects[name := p], st.ports + {Print(p.port)}), name, true) == st
  {
    assert st.projects[name := p] - {name} == st.projects;
    assert st.ports + {Print(p.port)} - {Print(p.port)} == st.ports;
  }

  /** Adding a project and removing it gives the store back, so that the next
      allocation hands out the same port again. */
  lemma {:induction false} AddThenRemove(st: State, name: string, subdomain: string, path: string)
    requires Sound(st) && name !in st.projects && name != ""
    ensures Step(Step(st, Add(name, subdomain, 0, path, true, true)), Remove(name, true, true)) == st
  {
    var st' := Step(st, Add(name, subdomain, 0, path, true, true));
    var granted := Allocation(st.ports);
    if granted.Some? {
      var p := granted.value;
      FreeIffAbsent(st, p);
      assert st' == State(st.projects[name := Project(name, subdomain, p, path)], st.ports + {Print(p)});
      AddedGone(st, name, Project(name, subdomain, p, path));
    } else {
      assert st.projects - {name} == st.projects;
    }
  }

  /** Adding a project directory whose configuration has no name leaks a port. */
  lemma {:induction false} NamelessProjectLeaks(path: string)
    ensures var st := After([Add("", "", 0, path, true, true)]);
            st.projects == map[] && st.ports == {Print(MIN_PORT)} && !Exact(st)
  {
    var c := Add("", "", 0, path, true, true);
    var st0 := State(map[], {});
    assert [c][..0] == [];
    assert After([c]) == Step(Run(st0, []), c);
    assert MIN_PORT in FreePorts({});
    assert Allocation({}) == Some(MIN_PORT);
    assert HeldPorts(map[]) == {} && Keys({}) == {};
  }
}
