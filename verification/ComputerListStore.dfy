/** The ordered list behind the Computer list's map of rows (src/stores/computerStore.ts): the
    helpers that return new lists, and the sections that change the store. */
module ComputerListStore {
  import opened Outcomes
  import opened RuntimeObservations
  import opened ComputerList

  datatype Instance = Instance(id: InstanceId, row: Row)

  datatype StatusEntry = StatusEntry(id: InstanceId, status: ComputerStatus)

  /** The first row of an id. */
  function Find(list: seq<Instance>, id: InstanceId): Option<Row> {
    if list == [] then None
    else if list[0].id == id then Some(list[0].row)
    else Find(list[1..], id)
  }

  /** The list shows the rows, whatever their order. */
  ghost predicate Shows(list: seq<Instance>, rows: map<InstanceId, Row>) {
    forall id :: Find(list, id) == Lookup(rows, id)
  }

  // ---------- The list helpers ----------

  /** All rows of an id replaced in place. */
  function Replaced(list: seq<Instance>, id: InstanceId, row: Row): seq<Instance> {
    seq(|list|, i requires 0 <= i < |list| => if list[i].id == id then Instance(id, row) else list[i])
  }

  function WithoutId(list: seq<Instance>, id: InstanceId): seq<Instance> {
    if list == [] then []
    else (if list[0].id == id then [] else [list[0]]) + WithoutId(list[1..], id)
  }

  function FirstOf(list: seq<Instance>): Option<InstanceId> {
    if list == [] then None else Some(list[0].id)
  }

  /** `upsertInstance`. */
  function UpsertedList(list: seq<Instance>, cells: map<InstanceId, Cell>, id: InstanceId, incoming: Row)
    : seq<Instance>
  {
    if CellAt(cells, id).deleted.Some? then list
    else
      var merged := incoming.(runtime := Resolved(CellAt(cells, id), Find(list, id), incoming.runtime));
      if Find(list, id).Some? then Replaced(list, id, merged) else list + [Instance(id, merged)]
  }

  /** `reconcileInstances`: in the backend's order, without deleted ids. */
  function ReconciledList(list: seq<Instance>, cells: map<InstanceId, Cell>, statuses: seq<StatusEntry>)
    : seq<Instance>
  {
    if statuses == [] then []
    else
      var e := statuses[0];
      var rest := ReconciledList(list, cells, statuses[1..]);
      if CellAt(cells, e.id).deleted.Some? then rest
      else
        var incoming := RowOf(e.status);
        [Instance(e.id, incoming.(runtime := Resolved(CellAt(cells, e.id), Find(list, e.id), incoming.runtime)))] + rest
  }

  /** The statuses by id, the first of each. */
  function StatusMap(statuses: seq<StatusEntry>): map<InstanceId, ComputerStatus> {
    if statuses == [] then map[] else StatusMap(statuses[1..])[statuses[0].id := statuses[0].status]
  }

  function IdsOfList(list: seq<Instance>): seq<InstanceId> {
    seq(|list|, i requires 0 <= i < |list| => list[i].id)
  }

  /** The reported ids in the backend's order, without the fenced ones. */
  function UnfencedIds(statuses: seq<StatusEntry>, cells: map<InstanceId, Cell>): seq<InstanceId> {
    if statuses == [] then []
    else
      var rest := UnfencedIds(statuses[1..], cells);
      if statuses[0].id in cells && cells[statuses[0].id].deleted.Some? then rest else [statuses[0].id] + rest
  }

  lemma {:induction false} ReconciledOrder(list: seq<Instance>, cells: map<InstanceId, Cell>,
                                           statuses: seq<StatusEntry>)
    ensures IdsOfList(ReconciledList(list, cells, statuses)) == UnfencedIds(statuses, cells)
  {
    if statuses != [] {
      ReconciledOrder(list, cells, statuses[1..]);
      var all, rest := ReconciledList(list, cells, statuses), ReconciledList(list, cells, statuses[1..]);
      if all != rest { assert all == [all[0]] + rest && IdsOfList(all) == [all[0].id] + IdsOfList(rest); }
    }
  }

  lemma {:induction false} FindInReplaced(list: seq<Instance>, id: InstanceId, row: Row, o: InstanceId)
    ensures Find(Replaced(list, id, row), o) == if o == id && Find(list, id).Some? then Some(row) else Find(list, o)
  {
    if list != [] {
      FindInReplaced(list[1..], id, row, o);
      assert Replaced(list, id, row)[1..] == Replaced(list[1..], id, row);
    }
  }

  lemma {:induction false} FindInAppended(list: seq<Instance>, x: Instance, o: InstanceId)
    ensures Find(list + [x], o) ==
      (if Find(list, o).Some? then Find(list, o) else if x.id == o then Some(x.row) else None)
  {
    if list != [] {
      FindInAppended(list[1..], x, o);
      assert (list + [x])[1..] == list[1..] + [x];
    }
  }

  lemma {:induction false} FindInWithout(list: seq<Instance>, id: InstanceId, o: InstanceId)
    ensures Find(WithoutId(list, id), o) == if o == id then None else Find(list, o)
  {
    if list != [] {
      FindInWithout(list[1..], id, o);
      if list[0].id != id { assert WithoutId(list, id)[1..] == WithoutId(list[1..], id); }
      else { assert WithoutId(list, id) == WithoutId(list[1..], id); }
    }
  }

  /** Upserting in the list is upserting in the map. */
  lemma UpsertedListShows(list: seq<Instance>, v: Screen, id: InstanceId, incoming: Row)
    requires Shows(list, v.rows)
    ensures Shows(UpsertedList(list, v.cells, id, incoming), Upserted(v, id, incoming).rows)
  {
    var merged := Merged(v, id, incoming);
    assert Find(list, id) == Lookup(v.rows, id);
    forall o ensures Find(UpsertedList(list, v.cells, id, incoming), o) == Lookup(Upserted(v, id, incoming).rows, o) {
      assert Find(list, o) == Lookup(v.rows, o);
      FindInReplaced(list, id, merged, o);
      FindInAppended(list, Instance(id, merged), o);
    }
  }

  lemma {:induction false} FindInReconciled(list: seq<Instance>, v: Screen, statuses: seq<StatusEntry>, o: InstanceId)
    requires Shows(list, v.rows)
    ensures Find(ReconciledList(list, v.cells, statuses), o) == Lookup(Reconciled(v, StatusMap(statuses)).rows, o)
  {
    if statuses != [] {
      FindInReconciled(list, v, statuses[1..], o);
      var e, rest := statuses[0], ReconciledList(list, v.cells, statuses[1..]);
      assert Find(list, e.id) == Lookup(v.rows, e.id);
      if !IsDeleted(v, e.id) { assert ReconciledList(list, v.cells, statuses)[1..] == rest; }
    }
  }

  /** One more status received is one more received at all, in whatever order. */
  lemma IngestedAllGrows(v: Screen, all: map<InstanceId, ComputerStatus>, id: InstanceId, status: ComputerStatus)
    requires id !in all
    ensures IngestedAll(v, all[id := status])
         == Ingested(IngestedAll(v, all), id, status.snapshot, status.connection, true)
  {
    var a := IngestedAll(v, all[id := status]);
    var b := Ingested(IngestedAll(v, all), id, status.snapshot, status.connection, true);
    CellAfterReceiving(v, all, id);
    assert a.cells == b.cells by {
      forall o | o in a.cells ensures o in b.cells && a.cells[o] == b.cells[o] {
        CellAfterReceiving(v, all, o);
        CellAfterReceiving(v, all[id := status], o);
      }
    }
    assert a.rows == b.rows by {
      forall o | o in a.rows ensures o in b.rows && a.rows[o] == b.rows[o] {
        CellAfterReceiving(v, all, o);
        CellAfterReceiving(v, all[id := status], o);
      }
    }
  }

  ghost function IdsOf(ids: seq<InstanceId>): (r: set<InstanceId>)
    ensures forall id :: id in r <==> id in ids
  {
    if ids == [] then {} else IdsOf(ids[..|ids| - 1]) + {ids[|ids| - 1]}
  }

  function OneForgotten(v: Screen, id: InstanceId): Screen {
    v.(cells := v.cells[id := Forgotten(CellAt(v.cells, id))])
  }

  lemma ForgottenAllGrows(v: Screen, ids: set<InstanceId>, id: InstanceId)
    requires id !in ids
    ensures ForgottenAll(v, ids + {id}) == OneForgotten(ForgottenAll(v, ids), id)
  {}

  lemma NothingChanges(v: Screen)
    ensures IngestedAll(v, map[]) == v && ForgottenAll(v, {}) == v
  {
    assert IngestedAll(v, map[]).rows == v.rows && IngestedAll(v, map[]).cells == v.cells;
    assert ForgottenAll(v, {}).cells == v.cells;
  }

  predicate DistinctStatuses(list: seq<StatusEntry>) {
    forall i, j :: 0 <= i < j < |list| ==> list[i].id != list[j].id
  }

  lemma {:induction false} StatusMapGrows(statuses: seq<StatusEntry>, e: StatusEntry)
    requires forall i :: 0 <= i < |statuses| ==> statuses[i].id != e.id
    ensures StatusMap(statuses + [e]) == StatusMap(statuses)[e.id := e.status]
    ensures e.id !in StatusMap(statuses)
  {
    if statuses != [] {
      StatusMapGrows(statuses[1..], e);
      assert (statuses + [e])[1..] == statuses[1..] + [e];
    }
  }

  /** With distinct ids, the map holds exactly the entries. */
  lemma {:induction false} StatusMapHolds(statuses: seq<StatusEntry>)
    requires DistinctStatuses(statuses)
    ensures forall i :: 0 <= i < |statuses| ==>
      statuses[i].id in StatusMap(statuses) && StatusMap(statuses)[statuses[i].id] == statuses[i].status
    ensures forall id :: id in StatusMap(statuses) ==> exists i :: 0 <= i < |statuses| && statuses[i].id == id
  {
    if statuses != [] {
      StatusMapHolds(statuses[1..]);
      forall i | 0 < i < |statuses|
        ensures statuses[i].id in StatusMap(statuses) && StatusMap(statuses)[statuses[i].id] == statuses[i].status
      {
        assert statuses[1..][i - 1] == statuses[i];
      }
      forall id | id in StatusMap(statuses) ensures exists i :: 0 <= i < |statuses| && statuses[i].id == id {
        if id == statuses[0].id {
          assert statuses[0].id == id;
        } else {
          var i :| 0 <= i < |statuses[1..]| && statuses[1..][i].id == id;
          assert statuses[i + 1].id == id;
        }
      }
    }
  }

  // ---------- The store ----------

  /** The list with its counters, and the runtime store's cells. `rows` is what the list shows. */
  class ComputerStore {
    var instances: seq<Instance>
    var cells: map<InstanceId, Cell>
    var loading: bool
    var pendingMutationCount: nat
    var mutationCompletionRevision: nat
    var selected: Option<InstanceId>
    ghost var rows: map<InstanceId, Row>

    ghost predicate Valid()
      reads this
    {
      Shows(instances, rows)
    }

    ghost function View(): Screen
      reads this
    {
      Screen(rows, cells)
    }

    constructor ()
      ensures Valid() && View() == Screen(map[], map[]) && !loading && pendingMutationCount == 0
    {
      instances, cells, rows, selected := [], map[], map[], None;
      loading, pendingMutationCount, mutationCompletionRevision := false, 0, 0;
    }

    method UpsertInstance(id: InstanceId, incoming: Row)
      requires Valid()
      modifies this`instances, this`rows
      ensures Valid() && View() == Upserted(old(View()), id, incoming)
      ensures RowShown(old(View()), View(), id, incoming.name, incoming.policy, incoming.runtime)
    {
      UpsertedListShows(instances, View(), id, incoming);
      UpsertedShows(View(), id, incoming);
      instances, rows := UpsertedList(instances, cells, id, incoming), Upserted(View(), id, incoming).rows;
    }

    method ReconcileInstances(statuses: seq<StatusEntry>)
      requires Valid()
      modifies this`instances, this`rows, this`selected
      ensures Valid() && View() == Reconciled(old(View()), StatusMap(statuses))
      ensures instances == ReconciledList(old(instances), cells, statuses)
      ensures ListShown(old(View()), View(), StatusMap(statuses))
      ensures IdsOfList(instances) == UnfencedIds(statuses, cells)
      ensures selected ==
        if old(selected).Some? && old(selected).value in rows then old(selected) else FirstOf(instances)
    {
      ReconciledOrder(instances, cells, statuses);
      ReconciledShows(View(), StatusMap(statuses));
      ghost var reconciled := Reconciled(View(), StatusMap(statuses)).rows;
      forall o ensures Find(ReconciledList(instances, cells, statuses), o) == Lookup(reconciled, o) {
        FindInReconciled(instances, View(), statuses, o);
      }
      instances, rows := ReconciledList(instances, cells, statuses), reconciled;
      if selected.Some? { assert Find(instances, selected.value) == Lookup(rows, selected.value); }
      if selected == None || Find(instances, selected.value) == None { selected := FirstOf(instances); }
    }

    /** What a confirmed deletion does after its import. */
    method RemoveInstance(id: InstanceId, incarnation: nat)
      requires Valid()
      modifies this`instances, this`cells, this`rows, this`selected
      ensures Valid() && View() == Removed(old(View()), id, incarnation)
      ensures selected == if old(selected) == Some(id) then FirstOf(instances) else old(selected)
    {
      cells := cells[id := Evicted(CellAt(cells, id), incarnation)];
      forall o ensures Find(WithoutId(instances, id), o) == Lookup(rows - {id}, o) {
        assert Find(instances, o) == Lookup(rows, o);
        FindInWithout(instances, id, o);
      }
      instances, rows := WithoutId(instances, id), rows - {id};
      if selected == Some(id) { selected := FirstOf(instances); }
    }

    /** One status through the runtime store, which announces its snapshot to the list. */
    method ReceiveStatus(e: StatusEntry, rediscovery: bool)
      requires Valid()
      modifies this`instances, this`cells, this`rows
      ensures Valid() && View() == Ingested(old(View()), e.id, e.status.snapshot, e.status.connection, rediscovery)
    {
      var cell := Received(CellAt(cells, e.id), e.status.snapshot, Some(e.status.connection), rediscovery);
      cells := cells[e.id := cell];
      assert Find(instances, e.id) == Lookup(rows, e.id);
      var current := Find(instances, e.id);
      if current.Some? {
        var announced := Announced(current.value, cell);
        forall o ensures Find(Replaced(instances, e.id, announced), o) == Lookup(rows[e.id := announced], o) {
          assert Find(instances, o) == Lookup(rows, o);
          FindInReplaced(instances, e.id, announced, o);
        }
        instances, rows := Replaced(instances, e.id, announced), rows[e.id := announced];
      }
    }

    /** `ingestStatuses` after its import: nothing, unless the list is still current. */
    method IngestStatuses(statuses: seq<StatusEntry>, current: bool)
      requires Valid() && DistinctStatuses(statuses)
      modifies this`instances, this`cells, this`rows
      ensures Valid() && View() == if current then IngestedAll(old(View()), StatusMap(statuses)) else old(View())
    {
      if !current { return; }
      NothingChanges(View());
      for i := 0 to |statuses|
        invariant Valid() && View() == IngestedAll(old(View()), StatusMap(statuses[..i]))
      {
        assert statuses[..i + 1] == statuses[..i] + [statuses[i]];
        StatusMapGrows(statuses[..i], statuses[i]);
        IngestedAllGrows(old(View()), StatusMap(statuses[..i]), statuses[i].id, statuses[i].status);
        ReceiveStatus(statuses[i], true);
      }
      assert statuses[..|statuses|] == statuses;
    }

    method ForgetSnapshot(id: InstanceId)
      modifies this`cells
      ensures View() == OneForgotten(old(View()), id)
    {
      cells := cells[id := Forgotten(CellAt(cells, id))];
    }

    /** Ids that the list no longer reports are forgotten, each once. */
    method ForgetMissing(missing: seq<InstanceId>)
      requires Valid() && forall i, j :: 0 <= i < j < |missing| ==> missing[i] != missing[j]
      modifies this`cells
      ensures Valid() && View() == ForgottenAll(old(View()), IdsOf(missing))
    {
      NothingChanges(View());
      for i := 0 to |missing|
        invariant Valid() && View() == ForgottenAll(old(View()), IdsOf(missing[..i]))
      {
        assert missing[..i + 1][..i] == missing[..i];
        assert missing[i] !in missing[..i];
        ForgottenAllGrows(old(View()), IdsOf(missing[..i]), missing[i]);
        ForgetSnapshot(missing[i]);
      }
      assert missing[..|missing|] == missing;
    }

    /** The `finally` block of every mutation. */
    method FinishMutation()
      modifies this`pendingMutationCount, this`loading, this`mutationCompletionRevision
      ensures pendingMutationCount == if old(pendingMutationCount) == 0 then 0 else old(pendingMutationCount) - 1
      ensures loading == (pendingMutationCount > 0)
      ensures mutationCompletionRevision == old(mutationCompletionRevision) + 1
    {
      if pendingMutationCount > 0 { pendingMutationCount := pendingMutationCount - 1; }
      loading := pendingMutationCount > 0;
      mutationCompletionRevision := mutationCompletionRevision + 1;
    }
  }
}
