/** OAuth status of the listed servers (src/stores/mcpStore.ts): events arrive in order, lists of
    servers are read at some moment between request and reply, and the active Computer can change
    at any time. A status is represented by its version at the backend. */
module OAuthRows {
  import opened Outcomes

  type InstanceId = string
  type BundleId = string

  datatype Server = Server(bundle: BundleId, status: nat)

  datatype Event = Event(instance: InstanceId, bundle: BundleId, status: nat)

  /** A list request in flight. */
  datatype Request = Request(id: nat, instance: InstanceId, epoch: nat, rehydrates: bool, reply: Option<seq<Server>>)

  datatype Store = Store(
    servers: seq<Server>, active: Option<InstanceId>, requestId: nat, epoch: nat,
    epochs: map<BundleId, nat>, latest: map<BundleId, nat>)

  datatype State = State(
    store: Store, requests: seq<Request>,
    versions: map<(InstanceId, BundleId), nat>,    // at the backend
    events: seq<Event>,                            // emitted and not yet delivered
    delivered: map<(InstanceId, BundleId), nat>)   // status of the last event delivered

  datatype Step =
    | Change(instance: InstanceId, bundle: BundleId)
    | Deliver
    | FetchServers(instance: InstanceId)
    | Rehydrate(instance: InstanceId)
    | BeginAction(instance: InstanceId)
    | Reset
    | Serve(request: nat, bundles: seq<BundleId>)
    | Succeed(request: nat)
    | Fail(request: nat)

  // ---------- The store ----------

  /** `preserveNewerOAuthEvents`. */
  function Preserved(fetched: seq<Server>, epochs: map<BundleId, nat>, latest: map<BundleId, nat>, requestEpoch: nat)
    : seq<Server>
  {
    seq(|fetched|, i requires 0 <= i < |fetched| =>
      if At(epochs, fetched[i].bundle) <= requestEpoch || fetched[i].bundle !in latest then fetched[i]
      else fetched[i].(status := latest[fetched[i].bundle]))
  }

  function Fetching(s: Store, instance: InstanceId): Store {
    var begun := s.(active := Some(instance), requestId := s.requestId + 1);
    if s.active != Some(instance) then begun.(servers := [], epochs := map[], latest := map[]) else begun
  }

  predicate IsNewest(s: Store, r: Request) {
    s.requestId == r.id && s.active == Some(r.instance)
  }

  function Listed(s: Store, r: Request, fetched: seq<Server>): Store {
    if !IsNewest(s, r) then s
    else s.(servers := Preserved(fetched, s.epochs, s.latest, r.epoch))
  }

  function Updated(servers: seq<Server>, bundle: BundleId, status: nat): seq<Server> {
    seq(|servers|, i requires 0 <= i < |servers| =>
      if servers[i].bundle == bundle then servers[i].(status := status) else servers[i])
  }

  function Received(s: Store, e: Event): Store {
    if s.active != Some(e.instance) then s
    else s.(epoch := s.epoch + 1, epochs := s.epochs[e.bundle := s.epoch + 1], latest := s.latest[e.bundle := e.status],
            servers := Updated(s.servers, e.bundle, e.status))
  }

  function Cleared(s: Store): Store {
    Store([], None, s.requestId + 1, s.epoch + 1, map[], map[])
  }

  // ---------- Steps ----------

  ghost predicate Enabled(s: State, step: Step) {
    match step
    case Deliver => s.events != []
    case Rehydrate(instance) => s.store.active == Some(instance)
    case BeginAction(_) => s.store.active == None
    case Serve(i, _) => i < |s.requests| && s.requests[i].reply == None
    case Succeed(i) => i < |s.requests| && s.requests[i].reply.Some?
    case Fail(i) => i < |s.requests|
    case _ => true
  }

  function Reply(s: State, instance: InstanceId, bundles: seq<BundleId>): seq<Server> {
    seq(|bundles|, i requires 0 <= i < |bundles| => Server(bundles[i], At(s.versions, (instance, bundles[i]))))
  }

  function Apply(s: State, step: Step): State
    requires Enabled(s, step)
  {
    match step
    case Change(instance, bundle) =>
      var status := At(s.versions, (instance, bundle)) + 1;
      s.(versions := s.versions[(instance, bundle) := status], events := s.events + [Event(instance, bundle, status)])
    case Deliver =>
      var e := s.events[0];
      s.(store := Received(s.store, e), events := s.events[1..],
         delivered := s.delivered[(e.instance, e.bundle) := e.status])
    case FetchServers(instance) =>
      var store := Fetching(s.store, instance);
      s.(store := store, requests := s.requests + [Request(store.requestId, instance, s.store.epoch, false, None)])
    case Rehydrate(instance) =>
      var store := s.store.(requestId := s.store.requestId + 1);
      s.(store := store, requests := s.requests + [Request(store.requestId, instance, s.store.epoch, true, None)])
    case BeginAction(instance) => s.(store := s.store.(active := Some(instance)))
    case Reset => s.(store := Cleared(s.store))
    case Serve(i, bundles) =>
      var r := s.requests[i];
      s.(requests := s.requests[i := r.(reply := Some(Reply(s, r.instance, bundles)))])
    case Succeed(i) =>
      s.(store := Listed(s.store, s.requests[i], s.requests[i].reply.value), requests := WithoutAt(s.requests, i))
    case Fail(i) => s.(requests := WithoutAt(s.requests, i))
  }

  // ---------- Events ----------

  /** Per bundle, events in flight are in order, newer than the last delivered one, and no newer
      than the backend; when none is left, the last delivered one is current. */
  ghost predicate EventOk(s: State, i: int) {
    0 <= i < |s.events| ==>
      var e := s.events[i];
      && At(s.delivered, (e.instance, e.bundle)) < e.status <= At(s.versions, (e.instance, e.bundle))
      && forall j :: 0 <= j < i && s.events[j].instance == e.instance && s.events[j].bundle == e.bundle ==>
        s.events[j].status < e.status
  }

  ghost predicate HasEvent(s: State, at: (InstanceId, BundleId), status: nat) {
    exists i :: 0 <= i < |s.events| && s.events[i] == Event(at.0, at.1, status)
  }

  ghost predicate EventsInv(s: State) {
    && (forall i :: EventOk(s, i))
    && (forall at :: At(s.delivered, at) == At(s.versions, at) || HasEvent(s, at, At(s.versions, at)))
    && (forall at :: At(s.delivered, at) <= At(s.versions, at))
  }

  lemma ChangeKeepsEvents(s: State, instance: InstanceId, bundle: BundleId)
    requires EventsInv(s)
    ensures EventsInv(Apply(s, Change(instance, bundle)))
  {
    var s' := Apply(s, Change(instance, bundle));
    var n := |s.events|;
    assert s'.events[n] == Event(instance, bundle, At(s'.versions, (instance, bundle)));
    forall i ensures EventOk(s', i) {
      assert EventOk(s, i);
      if i == n {
        assert At(s.delivered, (instance, bundle)) <= At(s.versions, (instance, bundle));
        forall j | 0 <= j < n && s.events[j].instance == instance && s.events[j].bundle == bundle
          ensures s.events[j].status < s'.events[n].status
        {
          assert EventOk(s, j);
        }
      }
    }
    forall at ensures At(s'.delivered, at) == At(s'.versions, at) || HasEvent(s', at, At(s'.versions, at)) {
      if at != (instance, bundle) && HasEvent(s, at, At(s.versions, at)) {
        var i :| 0 <= i < n && s.events[i] == Event(at.0, at.1, At(s.versions, at));
        assert s'.events[i] == s.events[i];
      }
    }
  }

  lemma DeliveryKeepsEvents(s: State)
    requires EventsInv(s) && s.events != []
    ensures EventsInv(Apply(s, Deliver))
  {
    var s', e := Apply(s, Deliver), s.events[0];
    assert EventOk(s, 0);
    forall i ensures EventOk(s', i) {
      if 0 <= i < |s'.events| {
        assert EventOk(s, i + 1) && s'.events[i] == s.events[i + 1];
        forall j | 0 <= j < i ensures s'.events[j] == s.events[j + 1] {}
      }
    }
    forall at ensures At(s'.delivered, at) == At(s'.versions, at) || HasEvent(s', at, At(s'.versions, at)) {
      if HasEvent(s, at, At(s.versions, at)) {
        var i :| 0 <= i < |s.events| && s.events[i] == Event(at.0, at.1, At(s.versions, at));
        if i > 0 { assert s'.events[i - 1] == s.events[i]; } else { assert at == (e.instance, e.bundle); }
      }
    }
  }

  lemma StepKeepsEvents(s: State, step: Step)
    requires EventsInv(s) && Enabled(s, step)
    ensures EventsInv(Apply(s, step))
  {
    match step
    case Change(instance, bundle) => ChangeKeepsEvents(s, instance, bundle);
    case Deliver => DeliveryKeepsEvents(s);
    case _ =>
      forall i ensures EventOk(Apply(s, step), i) { assert EventOk(s, i); }
      forall at | HasEvent(s, at, At(s.versions, at)) ensures HasEvent(Apply(s, step), at, At(s.versions, at)) {}
  }

  // ---------- Rows ----------

  /** No row of the active Computer is older than the last delivered event of its bundle, nor newer
      than the backend. */
  ghost predicate RowOk(s: State, instance: InstanceId, row: Server) {
    At(s.delivered, (instance, row.bundle)) <= row.status <= At(s.versions, (instance, row.bundle))
  }

  ghost predicate RowsInv(s: State) {
    && (s.store.active == None ==> s.store.servers == [])
    && (s.store.active.Some? ==>
      forall i :: 0 <= i < |s.store.servers| ==> RowOk(s, s.store.active.value, s.store.servers[i]))
  }

  /** What the store remembers of events are the last delivered ones of the active Computer. */
  ghost predicate MemoryInv(s: State) {
    && (s.store.active == None ==> s.store.latest == map[])
    && (forall b :: b in s.store.latest ==>
      && s.store.active.Some? && s.store.latest[b] == At(s.delivered, (s.store.active.value, b)))
    && s.store.epochs.Keys == s.store.latest.Keys
    && (forall b :: b in s.store.epochs ==> s.store.epochs[b] <= s.store.epoch)
  }

  predicate IsCurrent(s: State, r: Request) {
    IsNewest(s.store, r)
  }

  /** A reply that will be listed is no older than any event delivered before its request, and for
      events delivered since, the store remembers the newer status. */
  ghost predicate ReplyOk(s: State, r: Request, row: Server) {
    && row.status <= At(s.versions, (r.instance, row.bundle))
    && (IsCurrent(s, r) ==>
      || At(s.delivered, (r.instance, row.bundle)) <= row.status
      || (row.bundle in s.store.epochs && s.store.epochs[row.bundle] > r.epoch))
  }

  ghost predicate RequestOk(s: State, r: Request) {
    && r.id <= s.store.requestId && r.epoch <= s.store.epoch
    && (r.id == s.store.requestId ==> s.store.active == Some(r.instance))
    && (r.reply.Some? ==> forall i :: 0 <= i < |r.reply.value| ==> ReplyOk(s, r, r.reply.value[i]))
  }

  ghost predicate RequestsInv(s: State) {
    forall i :: 0 <= i < |s.requests| ==> RequestOk(s, s.requests[i])
  }

  ghost predicate Inv(s: State) {
    EventsInv(s) && RowsInv(s) && MemoryInv(s) && RequestsInv(s)
  }

  lemma StepKeepsMemory(s: State, step: Step)
    requires Inv(s) && Enabled(s, step)
    ensures MemoryInv(Apply(s, step))
  {}

  lemma StepKeepsRequest(s: State, step: Step, r: Request)
    requires Inv(s) && Enabled(s, step) && RequestOk(s, r)
    ensures RequestOk(Apply(s, step), r)
  {
    var s' := Apply(s, step);
    if r.reply.Some? {
      forall i | 0 <= i < |r.reply.value| ensures ReplyOk(s', r, r.reply.value[i]) {
        assert ReplyOk(s, r, r.reply.value[i]);
      }
    }
  }

  lemma StepKeepsRequests(s: State, step: Step)
    requires Inv(s) && Enabled(s, step)
    ensures RequestsInv(Apply(s, step))
  {
    var s' := Apply(s, step);
    forall i | 0 <= i < |s'.requests| ensures RequestOk(s', s'.requests[i]) {
      if step.Succeed? || step.Fail? {
        var before := if i < step.request then i else i + 1;
        assert s'.requests[i] == s.requests[before];
        StepKeepsRequest(s, step, s.requests[before]);
      } else if i < |s.requests| {
        StepKeepsRequest(s, step, s.requests[i]);
      }
    }
  }

  lemma DeliveryKeepsRows(s: State)
    requires RowsInv(s) && EventOk(s, 0) && s.events != []
    ensures RowsInv(Apply(s, Deliver))
  {}

  lemma ListKeepsRows(s: State, i: nat)
    requires EventsInv(s) && RowsInv(s) && MemoryInv(s) && Enabled(s, Succeed(i)) && RequestOk(s, s.requests[i])
    ensures RowsInv(Apply(s, Succeed(i)))
  {
    var s', r := Apply(s, Succeed(i)), s.requests[i];
    if IsCurrent(s, r) {
      var listed := Preserved(r.reply.value, s.store.epochs, s.store.latest, r.epoch);
      assert s'.store.servers == listed && s'.store.active == Some(r.instance);
      forall j | 0 <= j < |listed| ensures RowOk(s', r.instance, listed[j]) { ListedRowOk(s, r, j); }
    }
  }

  /** A row of a current list is as it was read, or a newer event's. */
  lemma ListedRowOk(s: State, r: Request, j: nat)
    requires EventsInv(s) && MemoryInv(s) && RequestOk(s, r) && IsCurrent(s, r) && r.reply.Some? && j < |r.reply.value|
    ensures RowOk(s, r.instance, Preserved(r.reply.value, s.store.epochs, s.store.latest, r.epoch)[j])
  {
    assert ReplyOk(s, r, r.reply.value[j]);
  }

  lemma StepKeepsRows(s: State, step: Step)
    requires Inv(s) && Enabled(s, step)
    ensures RowsInv(Apply(s, step))
  {
    match step
    case Deliver =>
      assert EventOk(s, 0);
      DeliveryKeepsRows(s);
    case Succeed(i) =>
      assert RequestOk(s, s.requests[i]);
      ListKeepsRows(s, i);
    case _ =>
  }

  function Bundles(servers: seq<Server>): seq<BundleId> {
    seq(|servers|, i requires 0 <= i < |servers| => servers[i].bundle)
  }

  /** A list that takes effect shows exactly the bundles fetched, in their order, each with the status
      fetched, or with that of an event since the request; any other list changes nothing. */
  predicate ListTakesEffect(s: Store, end: Store, r: Request, fetched: seq<Server>) {
    if s.requestId == r.id && s.active == Some(r.instance) then
      && end == s.(servers := end.servers) && Bundles(end.servers) == Bundles(fetched)
      && forall i :: 0 <= i < |fetched| ==>
        end.servers[i].status ==
          if fetched[i].bundle in s.epochs && s.epochs[fetched[i].bundle] > r.epoch && fetched[i].bundle in s.latest
          then s.latest[fetched[i].bundle] else fetched[i].status
    else end == s
  }

  lemma ListedTakesEffect(s: Store, r: Request, fetched: seq<Server>)
    ensures ListTakesEffect(s, Listed(s, r, fetched), r, fetched)
  {}

  /** An event of the active Computer changes the status of the rows of its bundle, and is remembered
      as the latest; it adds, removes and moves no row. Any other changes nothing. */
  lemma ReceivedTakesEffect(s: Store, e: Event)
    ensures var end := Received(s, e);
      if s.active == Some(e.instance) then
        && Bundles(end.servers) == Bundles(s.servers)
        && (forall i :: 0 <= i < |s.servers| ==>
          end.servers[i].status == if s.servers[i].bundle == e.bundle then e.status else s.servers[i].status)
        && end.latest == s.latest[e.bundle := e.status] && end.epoch == s.epoch + 1
        && end.epochs == s.epochs[e.bundle := end.epoch] && end.active == s.active && end.requestId == s.requestId
      else end == s
  {}

  /** A request for the active Computer keeps its rows; a switch clears rows and memory. */
  lemma FetchingKeepsRows(s: Store, instance: InstanceId)
    ensures var end := Fetching(s, instance);
      && end.active == Some(instance) && end.requestId == s.requestId + 1 && end.epoch == s.epoch
      && if s.active == Some(instance) then end.servers == s.servers && end.epochs == s.epochs && end.latest == s.latest
         else end.servers == [] && end.epochs == map[] && end.latest == map[]
  {}

  // ---------- Runs ----------

  ghost predicate Init(s: State) {
    s.store == Store([], None, 0, 0, map[], map[]) && s.requests == [] && s.events == [] && s.delivered == s.versions
  }

  ghost predicate IsStep(s: State, step: Step, s': State) {
    Enabled(s, step) && s' == Apply(s, step)
  }

  ghost predicate IsRun(states: seq<State>, steps: seq<Step>) {
    && |states| == |steps| + 1
    && Init(states[0])
    && forall i {:trigger steps[i]} :: 0 <= i < |steps| ==> IsStep(states[i], steps[i], states[i + 1])
  }

  lemma {:induction false} RunKeepsInv(states: seq<State>, steps: seq<Step>, i: nat)
    requires IsRun(states, steps) && i < |states|
    ensures Inv(states[i])
  {
    if i > 0 {
      RunKeepsInv(states, steps, i - 1);
      StepKeepsEvents(states[i - 1], steps[i - 1]);
      StepKeepsMemory(states[i - 1], steps[i - 1]);
      StepKeepsRequests(states[i - 1], steps[i - 1]);
      StepKeepsRows(states[i - 1], steps[i - 1]);
    }
  }

  /** Whatever lists and events overlap, no row is older than the last event delivered for it. */
  lemma RowsNeverOlderThanEvents(states: seq<State>, steps: seq<Step>, i: nat, row: Server)
    requires IsRun(states, steps) && i < |states| && row in states[i].store.servers
    ensures states[i].store.active.Some?
    ensures row.status >= At(states[i].delivered, (states[i].store.active.value, row.bundle))
  {
    RunKeepsInv(states, steps, i);
  }

  /** Once every event has been delivered, every row shows the current status, even while lists are
      still in flight. */
  lemma RowsConverge(states: seq<State>, steps: seq<Step>, i: nat, row: Server)
    requires IsRun(states, steps) && i < |states| && row in states[i].store.servers
    requires states[i].events == []
    ensures states[i].store.active.Some?
    ensures row.status == At(states[i].versions, (states[i].store.active.value, row.bundle))
  {
    RunKeepsInv(states, steps, i);
    var s := states[i];
    var at := (s.store.active.value, row.bundle);
    assert !HasEvent(s, at, At(s.versions, at));
    assert RowOk(s, s.store.active.value, row);
  }

  // ---------- The store's methods ----------

  /** The store's fields, and the sections between its awaits. */
  class McpStore {
    var servers: seq<Server>
    var activeInstanceId: Option<InstanceId>
    var serversRequestId: nat
    var oauthEventEpoch: nat
    var oauthEventEpochByBundle: map<BundleId, nat>
    var latestOAuthStatusByBundle: map<BundleId, nat>
    var serversReady: bool
    var loading: bool

    ghost function View(): Store
      reads this
    {
      Store(servers, activeInstanceId, serversRequestId, oauthEventEpoch, oauthEventEpochByBundle,
            latestOAuthStatusByBundle)
    }

    constructor ()
      ensures View() == Store([], None, 0, 0, map[], map[]) && !serversReady && !loading
    {
      serversReady, loading := false, false;
      servers, activeInstanceId, serversRequestId, oauthEventEpoch := [], None, 0, 0;
      oauthEventEpochByBundle, latestOAuthStatusByBundle := map[], map[];
    }

    /** Up to the request: what the continuation will compare is returned. */
    method FetchServers(instance: InstanceId) returns (requestId: nat, requestEpoch: nat)
      modifies this
      ensures View() == Fetching(old(View()), instance)
      ensures requestId == serversRequestId && requestEpoch == old(oauthEventEpoch)
      ensures loading && !serversReady
    {
      loading, serversReady := true, false;
      requestId, requestEpoch := serversRequestId + 1, oauthEventEpoch;
      if activeInstanceId != Some(instance) {
        servers, oauthEventEpochByBundle, latestOAuthStatusByBundle := [], map[], map[];
      }
      activeInstanceId, serversRequestId := Some(instance), requestId;
    }

    method RehydrateServers(instance: InstanceId) returns (r: Option<(nat, nat)>)
      modifies this
      ensures r.Some? <==> old(activeInstanceId) == Some(instance)
      ensures r.None? ==> View() == old(View())
      ensures r.Some? ==> View() == old(View()).(requestId := old(serversRequestId) + 1)
      ensures r.Some? ==> r.value == (serversRequestId, old(oauthEventEpoch))
    {
      if activeInstanceId != Some(instance) { return None; }
      serversRequestId := serversRequestId + 1;
      return Some((serversRequestId, oauthEventEpoch));
    }

    /** After the reply. */
    method ReceiveServers(r: Request, fetched: seq<Server>)
      modifies this
      ensures View() == Listed(old(View()), r, fetched)
      ensures ListTakesEffect(old(View()), View(), r, fetched)
      ensures if IsNewest(old(View()), r) then serversReady && loading == (old(loading) && r.rehydrates)
        else serversReady == old(serversReady) && loading == old(loading)
    {
      if serversRequestId != r.id || activeInstanceId != Some(r.instance) { return; }
      var rows := [];
      for i := 0 to |fetched|
        invariant |rows| == i
        invariant forall j :: 0 <= j < i ==>
          rows[j] == Preserved(fetched, oauthEventEpochByBundle, latestOAuthStatusByBundle, r.epoch)[j]
      {
        var row := fetched[i];
        if At(oauthEventEpochByBundle, row.bundle) > r.epoch && row.bundle in latestOAuthStatusByBundle {
          row := row.(status := latestOAuthStatusByBundle[row.bundle]);
        }
        rows := rows + [row];
      }
      servers, serversReady := rows, true;
      if !r.rehydrates { loading := false; }
    }

    /** After a failed reply; only a full request settles what it began. */
    method FailServers(r: Request)
      modifies this
      ensures View() == old(View())
      ensures if IsNewest(old(View()), r) && !r.rehydrates then !serversReady && !loading
        else serversReady == old(serversReady) && loading == old(loading)
    {
      if serversRequestId != r.id || activeInstanceId != Some(r.instance) || r.rehydrates { return; }
      serversReady, loading := false, false;
    }

    method ApplyOAuthStatusEvent(e: Event)
      modifies this
      ensures View() == Received(old(View()), e)
      ensures serversReady == old(serversReady) && loading == old(loading)
    {
      if activeInstanceId != Some(e.instance) { return; }
      oauthEventEpoch := oauthEventEpoch + 1;
      oauthEventEpochByBundle := oauthEventEpochByBundle[e.bundle := oauthEventEpoch];
      latestOAuthStatusByBundle := latestOAuthStatusByBundle[e.bundle := e.status];
      var rows := servers;
      for i := 0 to |servers|
        invariant |rows| == |servers|
        invariant forall j :: 0 <= j < |servers| ==>
          rows[j] == if j < i then Updated(servers, e.bundle, e.status)[j] else servers[j]
      {
        if rows[i].bundle == e.bundle { rows := rows[i := rows[i].(status := e.status)]; }
      }
      servers := rows;
    }

    method Reset()
      modifies this
      ensures View() == Cleared(old(View())) && !serversReady && !loading
    {
      serversReady, loading := false, false;
      servers, activeInstanceId, oauthEventEpochByBundle, latestOAuthStatusByBundle := [], None, map[], map[];
      serversRequestId, oauthEventEpoch := serversRequestId + 1, oauthEventEpoch + 1;
    }
  }
}
