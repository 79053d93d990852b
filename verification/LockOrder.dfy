/** The locks of the registry and of the store: an update of routes takes the
    registry's and then the store's, a change of the store the store's and then
    the registry's. */
module LockOrder {

  /** What a thread is at. Both locks let readers in together and writers alone, and
      a writer that waits keeps new readers out. */
  datatype Thread =
    | Idle
    | Updating(lookups: nat)   // has the registry; so many mappings are still to be looked up
    | LookingUp(lookups: nat)  // has the registry and reads the store
    | Viewing                  // reads the registry
    | Reading                  // reads the store
    | Queued                   // waits to write the store
    | Writing                  // has the store
    | Notifying                // has the store, has written, and waits for the registry
    | Refreshing               // has both
  {
    predicate HasRegistry() { Updating? || LookingUp? || Refreshing? }

    predicate HasStore() { Writing? || Notifying? || Refreshing? }

    predicate ReadsStore() { LookingUp? || Reading? }
  }

  type State = seq<Thread>

  ghost predicate RegistryFree(s: State) { forall i :: 0 <= i < |s| ==> !s[i].HasRegistry() && !s[i].Viewing? }

  ghost predicate StoreFree(s: State) { forall i :: 0 <= i < |s| ==> !s[i].HasStore() && !s[i].ReadsStore() }

  /** New readers may come in. */
  ghost predicate StoreOpen(s: State) { forall i :: 0 <= i < |s| ==> !s[i].HasStore() && !s[i].Queued? }

  ghost predicate RegistryOpen(s: State) { forall i :: 0 <= i < |s| ==> !s[i].HasRegistry() }

  datatype Call = Update(lookups: nat) | View | Read | Store

  /** An idle thread may begin a call. */
  ghost predicate MayBegin(s: State, c: Call) {
    match c
    case Update(_) => RegistryFree(s)
    case View => RegistryOpen(s)
    case Read => StoreOpen(s)
    case Store => true
  }

  function Begun(c: Call): Thread {
    match c
    case Update(lookups) => Updating(lookups)
    case View => Viewing
    case Read => Reading
    case Store => Queued
  }

  /** A thread at work may go on. */
  ghost predicate MayGoOn(s: State, t: Thread) {
    match t
    case Idle => false
    case Updating(lookups) => lookups == 0 || StoreOpen(s)
    case Queued => StoreFree(s)
    case Notifying => RegistryFree(s)
    case _ => true
  }

  /** Where it is then; `fails` when the store could not be written. */
  function GoneOn(t: Thread, fails: bool): Thread {
    match t
    case Updating(lookups) => if lookups == 0 then Idle else LookingUp(lookups)
    case LookingUp(lookups) => if lookups == 0 then Idle else Updating(lookups - 1)
    case Queued => Writing
    case Writing => if fails then Idle else Notifying
    case Notifying => Refreshing
    case _ => Idle
  }

  datatype Step = Begin(thread: nat, call: Call) | GoOn(thread: nat, fails: bool)

  ghost predicate Enabled(s: State, e: Step) {
    && e.thread < |s|
    && match e
       case Begin(i, c) => s[i].Idle? && MayBegin(s, c)
       case GoOn(i, _) => MayGoOn(s, s[i])
  }

  function Next(s: State, e: Step): State
    requires e.thread < |s|
  {
    s[e.thread := match e
                  case Begin(_, c) => Begun(c)
                  case GoOn(i, fails) => GoneOn(s[i], fails)]
  }

  /** `after` comes of `before` by these steps. */
  ghost predicate Leads(before: State, steps: seq<Step>, after: State)
    decreases |steps|
  {
    if steps == [] then after == before
    else Enabled(before, steps[0]) && Leads(Next(before, steps[0]), steps[1..], after)
  }

  // ---- The locks exclude --------------------------------------------------------------------

  ghost predicate Exclusive(s: State) {
    && (forall i, j :: 0 <= i < |s| && 0 <= j < |s| && i != j && s[i].HasRegistry() ==>
          !s[j].HasRegistry() && !s[j].Viewing?)
    && (forall i, j :: 0 <= i < |s| && 0 <= j < |s| && i != j && s[i].HasStore() ==>
          !s[j].HasStore() && !s[j].ReadsStore())
  }

  lemma {:induction false} StepExcludes(s: State, e: Step)
    requires Exclusive(s) && Enabled(s, e)
    ensures Exclusive(Next(s, e))
  {
    var t := Next(s, e);
    forall i, j | 0 <= i < |t| && 0 <= j < |t| && i != j && t[i].HasRegistry()
      ensures !t[j].HasRegistry() && !t[j].Viewing?
    {
      assert i != e.thread ==> t[i] == s[i];
      assert j != e.thread ==> t[j] == s[j];
    }
    forall i, j | 0 <= i < |t| && 0 <= j < |t| && i != j && t[i].HasStore()
      ensures !t[j].HasStore() && !t[j].ReadsStore()
    {
      assert i != e.thread ==> t[i] == s[i];
      assert j != e.thread ==> t[j] == s[j];
    }
  }

  ghost predicate Reachable(s: State) {
    exists steps :: Leads(Start(|s|), steps, s)
  }

  function Start(threads: nat): State { seq(threads, _ => Idle) }

  lemma {:induction false} LeadsExcludes(before: State, steps: seq<Step>, after: State)
    requires Exclusive(before) && Leads(before, steps, after)
    ensures Exclusive(after)
    decreases |steps|
  {
    if steps != [] {
      StepExcludes(before, steps[0]);
      LeadsExcludes(Next(before, steps[0]), steps[1..], after);
    }
  }

  // ---- When nothing goes on -------------------------------------------------------------------

  /** Thread `u` has the registry and is about to look up a mapping; thread `w` has
      changed the store and is about to refresh the registry. */
  predicate Crossed(s: State, u: nat, w: nat) {
    u < |s| && w < |s| && s[u].Updating? && s[u].lookups > 0 && s[w].Notifying?
  }

  ghost predicate AtWork(s: State) { exists i :: 0 <= i < |s| && !s[i].Idle? }

  ghost predicate Stuck(s: State) { forall i :: 0 <= i < |s| ==> !MayGoOn(s, s[i]) }

  lemma {:induction false} CrossedIsStuck(s: State, u: nat, w: nat)
    requires Exclusive(s) && Crossed(s, u, w)
    ensures Stuck(s)
  {
    assert s[u].HasRegistry() && s[w].HasStore();
  }

  predicate NeedsNoLock(t: Thread) {
    !t.Idle? && !t.Queued? && !t.Notifying? && (t.Updating? ==> t.lookups == 0)
  }

  /** Unless a change of the store waits for the registry, some thread goes on. */
  lemma {:induction false} SomeGoesOn(s: State) returns (k: nat)
    requires AtWork(s) && forall j :: 0 <= j < |s| ==> !s[j].Notifying?
    ensures k < |s| && MayGoOn(s, s[k])
  {
    if free :| 0 <= free < |s| && NeedsNoLock(s[free]) {
      k := free;
    } else {
      assert forall j :: 0 <= j < |s| ==> !NeedsNoLock(s[j]);
      if queued :| 0 <= queued < |s| && s[queued].Queued? {
        k := queued;
      } else {
        k :| 0 <= k < |s| && !s[k].Idle?;
      }
    }
  }

  lemma {:induction false} StuckIsCrossed(s: State) returns (u: nat, w: nat)
    requires AtWork(s) && Stuck(s)
    ensures Crossed(s, u, w)
  {
    if forall j :: 0 <= j < |s| ==> !s[j].Notifying? {
      var k := SomeGoesOn(s);
      assert false;
    }
    w :| 0 <= w < |s| && s[w].Notifying?;
    u := Holder(s, w);
  }

  /** A refresh that waits waits for an update. */
  lemma {:induction false} Holder(s: State, w: nat) returns (u: nat)
    requires w < |s| && s[w].Notifying? && Stuck(s)
    ensures u < |s| && s[u].Updating? && s[u].lookups > 0
  {
    assert !MayGoOn(s, s[w]);
    u :| 0 <= u < |s| && (s[u].HasRegistry() || s[u].Viewing?);
    assert !MayGoOn(s, s[u]);
  }

  /** In every reachable state in which some thread is at work: none of those at work
      can go on if and only if an update that is to look up a mapping and a change
      of the store that is to refresh the registry have crossed. */
  lemma {:induction false} StuckIff(s: State)
    requires Reachable(s) && AtWork(s)
    ensures Stuck(s) <==> exists u: nat, w: nat :: Crossed(s, u, w)
  {
    var steps :| Leads(Start(|s|), steps, s);
    LeadsExcludes(Start(|s|), steps, s);
    if Stuck(s) {
      var u, w := StuckIsCrossed(s);
    }
    if u: nat, w: nat :| Crossed(s, u, w) {
      CrossedIsStuck(s, u, w);
    }
  }

  /** And then they wait for each other for good, whatever other threads do. */
  lemma {:induction false} CrossedForGood(before: State, steps: seq<Step>, after: State, u: nat, w: nat)
    requires Exclusive(before) && Leads(before, steps, after) && Crossed(before, u, w)
    ensures Crossed(after, u, w)
    decreases |steps|
  {
    if steps != [] {
      CrossedIsStuck(before, u, w);
      StepExcludes(before, steps[0]);
      CrossedForGood(Next(before, steps[0]), steps[1..], after, u, w);
    }
  }

  /** A change of the store between two lookups of one update crosses it: an update
      that ends has found all its mappings in one and the same store. */
  lemma {:induction false} WriteDuringUpdateCrosses(s: State, u: nat, w: nat)
    requires Exclusive(s) && u < |s| && w < |s|
    requires s[w].Writing? && (s[u].LookingUp? || (s[u].Updating? && s[u].lookups > 0))
    ensures Enabled(s, GoOn(w, false)) && Crossed(Next(s, GoOn(w, false)), u, w)
  {
    assert s[w].HasStore() && u != w;
    assert !s[u].ReadsStore();
  }

  /** Two threads suffice: one begins an update, the other stores a mapping before
      the first has looked one up. */
  lemma {:induction false} TwoThreadsCross()
    ensures var steps := [Begin(0, Update(1)), Begin(1, Store), GoOn(1, false), GoOn(1, false)];
            Leads(Start(2), steps, [Updating(1), Notifying])
    ensures Crossed([Updating(1), Notifying], 0, 1)
  {
    var e1, e2, e3, e4 := Begin(0, Update(1)), Begin(1, Store), GoOn(1, false), GoOn(1, false);
    var s1, s2, s3 := [Updating(1), Idle], [Updating(1), Queued], [Updating(1), Writing];
    var s4 := [Updating(1), Notifying];
    assert Next(Start(2), e1) == s1 && Next(s1, e2) == s2 && Next(s2, e3) == s3 && Next(s3, e4) == s4;
    var steps := [e1, e2, e3, e4];
    assert steps[1..] == [e2, e3, e4] && steps[1..][1..] == [e3, e4] && [e3, e4][1..] == [e4] && [e4][1..] == [];
    assert Leads(s4, [], s4) && Leads(s3, [e4], s4) && Leads(s2, [e3, e4], s4) && Leads(s1, [e2, e3, e4], s4);
  }
}
