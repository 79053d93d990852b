/** The folder groups of a process batch as a partition of its positions. */
module FolderGroups {
  import opened Basics
  import opened Discovered
  import opened Registry

  predicate InFolder(svc: Service, folder: string) { svc.process.Some? && FolderOf(svc) == folder }

  /** `at` are the positions in the batch of the members of `folder`, in order. */
  ghost predicate Positions(batch: seq<Service>, folder: string, at: seq<nat>) {
    && |at| == |Members(batch, folder)|
    && (forall k :: 0 <= k < |at| ==> at[k] < |batch| && batch[at[k]] == Members(batch, folder)[k])
    && (forall k, l :: 0 <= k < l < |at| ==> at[k] < at[l])
    && (forall i :: 0 <= i < |batch| ==> (InFolder(batch[i], folder) <==> i in at))
  }

  /** The positions of a group's members increase in the batch, and they are all
      the positions that hold a process of the folder: repeated records count. */
  lemma {:induction false} GroupPositions(batch: seq<Service>, folder: string) returns (at: seq<nat>)
    ensures Positions(batch, folder, at)
  {
    if batch == [] {
      at := [];
    } else {
      var init, last := batch[..|batch| - 1], batch[|batch| - 1];
      at := GroupPositions(init, folder);
      assert batch == init + [last];
      MembersAppend(init, last, folder);
      if InFolder(last, folder) {
        PositionAdded(init, last, folder, at);
        at := at + [|init|];
      }
    }
  }

  lemma {:induction false} PositionAdded(init: seq<Service>, last: Service, folder: string, at: seq<nat>)
    requires Positions(init, folder, at) && InFolder(last, folder)
    ensures Positions(init + [last], folder, at + [|init|])
  {
    MembersAppend(init, last, folder);
    var batch, at' := init + [last], at + [|init|];
    forall i | 0 <= i < |batch| ensures InFolder(batch[i], folder) <==> i in at' {
      assert i < |init| ==> batch[i] == init[i];
      assert i in at' <==> i in at || i == |init|;
      assert i in at ==> exists k :: 0 <= k < |at| && at[k] == i;
    }
  }

  // ---- Sizes ------------------------------------------------------------------------------

  /** How many services of the batch are processes of one of the folders. */
  function CountIn(batch: seq<Service>, folders: set<string>): nat {
    if batch == [] then 0
    else
      var last := batch[|batch| - 1];
      CountIn(batch[..|batch| - 1], folders) + if last.process.Some? && FolderOf(last) in folders then 1 else 0
  }

  function Sizes(groups: Groups, order: seq<string>): nat
    requires forall f :: f in order ==> f in groups
  {
    if order == [] then 0
    else
      assert order[|order| - 1] in order;
      Sizes(groups, order[..|order| - 1]) + |groups[order[|order| - 1]]|
  }

  lemma {:induction false} CountOneMore(batch: seq<Service>, folders: set<string>, folder: string)
    requires folder !in folders
    ensures CountIn(batch, folders + {folder}) == CountIn(batch, folders) + |Members(batch, folder)|
  {
    if batch != [] {
      var init, last := batch[..|batch| - 1], batch[|batch| - 1];
      CountOneMore(init, folders, folder);
      assert batch == init + [last];
      MembersAppend(init, last, folder);
    }
  }

  lemma {:induction false} CountNone(batch: seq<Service>)
    ensures CountIn(batch, {}) == 0
  {
    if batch != [] { CountNone(batch[..|batch| - 1]); }
  }

  lemma {:induction false} CountAll(batch: seq<Service>, whole: seq<Service>)
    requires forall svc :: svc in batch ==> svc in whole
    ensures CountIn(batch, Folders(whole)) == |Filter(batch, (svc: Service) => FolderOf(svc) != "")|
  {
    if batch != [] {
      var init, last := batch[..|batch| - 1], batch[|batch| - 1];
      assert batch == init + [last] && last in batch;
      CountAll(init, whole);
      assert FolderOf(last) != "" ==> FolderOf(last) in Folders(whole);
    }
  }

  lemma {:induction false} SizesCount(batch: seq<Service>, order: seq<string>)
    requires NoDuplicates(order) && forall f :: f in order ==> f in GroupsOf(batch)
    ensures Sizes(GroupsOf(batch), order) == CountIn(batch, (set f | f in order))
  {
    if order == [] {
      CountNone(batch);
      assert (set f | f in order) == {};
    } else {
      var init, last := order[..|order| - 1], order[|order| - 1];
      assert order == init + [last] && last in order && last !in init;
      SizesCount(batch, init);
      assert (set f | f in order) == (set f | f in init) + {last};
      CountOneMore(batch, (set f | f in init), last);
    }
  }

  /** In whatever order the groups are listed, their sizes add up to the number of
      services of the batch that have a folder. */
  lemma {:induction false} GroupSizesAddUp(batch: seq<Service>, order: seq<string>)
    requires Enumerates(order, GroupsOf(batch).Keys)
    ensures Sizes(GroupsOf(batch), order) == |Filter(batch, (svc: Service) => FolderOf(svc) != "")|
  {
    SizesCount(batch, order);
    assert (set f | f in order) == Folders(batch);
    CountAll(batch, batch);
  }
}
