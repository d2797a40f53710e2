/** The Computer list and its mutation fences (src/stores/computerStore.ts).

    Every `await` is a yield point, so a call is a small state machine: it is issued, the backend
    serves it at some moment before the reply arrives, and it resumes once or more. Other calls,
    runtime events and further steps of the backend interleave freely. */
module ComputerList {
  import opened Outcomes
  import opened RuntimeObservations

  type CallId = nat

  /** One Computer as the backend reports it. */
  datatype ComputerStatus = ComputerStatus(
    name: string, policy: string, snapshot: Snapshot, connection: ConnectionInput)

  /** One Computer as the list shows it. */
  datatype Row = Row(name: string, policy: string, runtime: Snapshot)

  datatype Reply =
    | Statuses(all: map<InstanceId, ComputerStatus>)
    | One(id: InstanceId, status: ComputerStatus)
    | Acknowledged
    | Failure

  datatype Kind =
    | ListAll
    | Metadata(id: InstanceId, request: nat, version: nat)
    | CreateNew                                     // create or duplicate
    | ChangeProfile(id: InstanceId, version: nat)   // rename, connection policy, skill home
    | Delete(id: InstanceId, incarnation: nat)
    | RuntimeAction(id: InstanceId)                 // start, stop, restart
    | ConnectionCommand(id: InstanceId)             // connect, disconnect: no payload

  datatype Stage =
    | AwaitReply
    | AwaitMissingImport(missing: set<InstanceId>)
    | AwaitImport
    | AwaitIngested

  /** A call in flight, with the revisions it captured when it was issued and the backend times of
      its issue and of its service. */
  datatype Call = Call(
    kind: Kind, stage: Stage, issuedAt: nat, listRequest: nat, epoch: nat, completion: nat, deletion: nat,
    servedAt: nat, reply: Option<Reply>)

  /** What the stores hold: the rows of the list, and the observations of every Computer. */
  datatype Screen = Screen(rows: map<InstanceId, Row>, cells: map<InstanceId, Cell>)

  /** What has happened at the backend: the first incarnation of every Computer ever created, and
      when the last deletion of an id was confirmed. */
  datatype History = History(births: map<InstanceId, nat>, deletedAt: map<InstanceId, nat>)

  datatype State = State(
    screen: Screen, history: History,
    listRequest: nat, epoch: nat, completion: nat, deletion: nat,
    profileVersions: map<InstanceId, nat>, metadataRequests: map<InstanceId, nat>,
    pending: nat, loading: bool,
    calls: map<CallId, Call>,
    now: nat,                            // backend time: advances with every request it serves
    lastApplied: nat)                    // the latest backend time of a mutation response applied

  datatype Step =
    | StartList(call: CallId)
    | StartMetadata(call: CallId, id: InstanceId)
    | StartCreate(call: CallId)
    | StartProfile(call: CallId, id: InstanceId)
    | StartDelete(call: CallId, id: InstanceId)
    | StartAction(call: CallId, id: InstanceId)
    | StartConnection(call: CallId, id: InstanceId)
    | Serve(call: CallId, reply: Reply)
    | ResumeReply(call: CallId)
    | ResumeImport(call: CallId)
    | ResumeIngested(call: CallId)
    | RuntimeEvent(id: InstanceId, snapshot: Snapshot, connectionSeen: ConnectionInput)

  // ---------- Rows ----------

  function CellAt(cells: map<InstanceId, Cell>, id: InstanceId): Cell {
    if id in cells then cells[id] else EMPTY
  }

  predicate IsDeleted(v: Screen, id: InstanceId) {
    CellAt(v.cells, id).deleted.Some?
  }

  function Newest(a: Snapshot, b: Snapshot): Snapshot {
    if VersionLess(a.version, b.version) then b else a
  }

  /** `resolveRuntimeSnapshot`: the newest of the shown, the incoming and the authoritative one. */
  function Resolved(cell: Cell, current: Option<Row>, incoming: Snapshot): Snapshot {
    var preferred := if current.Some? then Newest(current.value.runtime, incoming) else incoming;
    if cell.live.Some? then Newest(preferred, cell.live.value) else preferred
  }

  function RowOf(status: ComputerStatus): Row {
    Row(status.name, status.policy, status.snapshot)
  }

  function Merged(v: Screen, id: InstanceId, incoming: Row): Row {
    incoming.(runtime := Resolved(CellAt(v.cells, id), Lookup(v.rows, id), incoming.runtime))
  }

  function Upserted(v: Screen, id: InstanceId, incoming: Row): Screen {
    if IsDeleted(v, id) then v else v.(rows := v.rows[id := Merged(v, id, incoming)])
  }

  function ActionUpserted(v: Screen, id: InstanceId, runtime: Snapshot): Screen {
    if IsDeleted(v, id) || id !in v.rows then v
    else v.(rows := v.rows[id := Merged(v, id, v.rows[id].(runtime := runtime))])
  }

  function Reconciled(v: Screen, all: map<InstanceId, ComputerStatus>): Screen {
    v.(rows := map id | id in all && !IsDeleted(v, id) :: Merged(v, id, RowOf(all[id])))
  }

  /** The row after its authoritative snapshot was announced to the list. */
  function Announced(row: Row, cell: Cell): Row {
    if cell.live.Some? then row.(runtime := Newest(row.runtime, cell.live.value)) else row
  }

  /** One status or event through the runtime store and on to the rows. */
  function Ingested(v: Screen, id: InstanceId, snapshot: Snapshot, connection: ConnectionInput, rediscovery: bool)
    : Screen
  {
    var cell := Received(CellAt(v.cells, id), snapshot, Some(connection), rediscovery);
    Screen(if id in v.rows then v.rows[id := Announced(v.rows[id], cell)] else v.rows, v.cells[id := cell])
  }

  /** A list's statuses, each id once, all trusted to rediscover. */
  function IngestedAll(v: Screen, all: map<InstanceId, ComputerStatus>): Screen {
    var cells := map id | id in v.cells.Keys + all.Keys ::
      if id !in all then v.cells[id]
      else Received(CellAt(v.cells, id), all[id].snapshot, Some(all[id].connection), true);
    Screen(map id | id in v.rows :: if id in all then Announced(v.rows[id], cells[id]) else v.rows[id], cells)
  }

  function ForgottenAll(v: Screen, ids: set<InstanceId>): Screen {
    v.(cells := map id | id in v.cells.Keys + ids ::
      if id in ids then Forgotten(CellAt(v.cells, id)) else v.cells[id])
  }

  function Removed(v: Screen, id: InstanceId, incarnation: nat): Screen {
    Screen(v.rows - {id}, v.cells[id := Evicted(CellAt(v.cells, id), incarnation)])
  }

  /** A mutation response takes effect on the rows; a profile mutation only while it is the newest
      of its Computer. */
  function Effective(s: State, kind: Kind): bool {
    kind.ChangeProfile? ==> Lookup(s.profileVersions, kind.id) == Some(kind.version)
  }

  function Answered(v: Screen, kind: Kind, id: InstanceId, status: ComputerStatus): Screen {
    if kind.RuntimeAction? then ActionUpserted(v, id, status.snapshot) else Upserted(v, id, RowOf(status))
  }

  // ---------- Steps ----------

  predicate IsCurrent(s: State, c: Call) {
    s.listRequest == c.listRequest && s.epoch == c.epoch && s.completion == c.completion && s.deletion == c.deletion
  }

  predicate Counts(k: Kind) {
    !k.ListAll? && !k.Metadata?
  }

  function NewCall(s: State, kind: Kind): Call {
    Call(kind, AwaitReply, s.now, s.listRequest, s.epoch, s.completion, s.deletion, 0, None)
  }

  function Bumped(m: map<InstanceId, nat>, id: InstanceId): map<InstanceId, nat> {
    m[id := At(m, id) + 1]
  }

  /** A mutation begins; only those that change profiles advance the epoch. */
  function Begun(s: State, k: CallId, kind: Kind, profile: bool): State {
    s.(calls := s.calls[k := NewCall(s, kind)], loading := true, pending := s.pending + 1,
       epoch := if profile then s.epoch + 1 else s.epoch)
  }

  /** The `finally` block of a mutation. */
  function Finished(s: State, k: CallId): State {
    var pending := if s.pending == 0 then 0 else s.pending - 1;
    s.(calls := s.calls - {k}, pending := pending, loading := pending > 0, completion := s.completion + 1)
  }

  /** A list call ends; it settles `loading` only while it is the latest list. */
  function ListEnded(s: State, k: CallId, c: Call): State {
    s.(calls := s.calls - {k}, loading := if s.listRequest == c.listRequest then s.pending > 0 else s.loading)
  }

  function Staged(s: State, k: CallId, stage: Stage): State
    requires k in s.calls
  {
    s.(calls := s.calls[k := s.calls[k].(stage := stage)])
  }

  /** What the backend may answer. A Computer is created once, under a fresh id; the answer to its
      creation carries its first incarnation, and nothing ever carries an older one. */
  ghost predicate Answers(s: State, kind: Kind, reply: Reply) {
    match reply
    case Failure => true
    case Acknowledged => kind.Delete? || kind.ConnectionCommand?
    case Statuses(all) =>
      && (kind.ListAll? || kind.Metadata?)
      && forall id :: id in all ==> Known(s.history, id, all[id].snapshot.version.incarnation)
    case One(id, status) =>
      || (kind.CreateNew? && id !in s.history.births)
      || (kind.ChangeProfile? && id == kind.id && Known(s.history, id, status.snapshot.version.incarnation))
      || (kind.RuntimeAction? && id == kind.id && Known(s.history, id, status.snapshot.version.incarnation))
  }

  ghost predicate Enabled(s: State, step: Step) {
    match step
    case StartList(k) => k !in s.calls
    case StartMetadata(k, _) => k !in s.calls
    case StartCreate(k) => k !in s.calls
    case StartProfile(k, _) => k !in s.calls
    case StartDelete(k, id) => k !in s.calls && id in s.screen.rows
    case StartAction(k, _) => k !in s.calls
    case StartConnection(k, _) => k !in s.calls
    case Serve(k, reply) => k in s.calls && s.calls[k].reply == None && Answers(s, s.calls[k].kind, reply)
    case ResumeReply(k) => k in s.calls && s.calls[k].stage == AwaitReply && s.calls[k].reply.Some?
    case ResumeImport(k) =>
      && k in s.calls && s.calls[k].reply.Some?
      && (s.calls[k].stage == AwaitImport || s.calls[k].stage.AwaitMissingImport?)
    case ResumeIngested(k) => k in s.calls && s.calls[k].reply.Some? && s.calls[k].stage == AwaitIngested
    case RuntimeEvent(id, snapshot, _) => Known(s.history, id, snapshot.version.incarnation)
  }

  function RepliedList(s: State, k: CallId, c: Call, all: map<InstanceId, ComputerStatus>): State
    requires k in s.calls
  {
    var missing := s.screen.rows.Keys - all.Keys;
    if !IsCurrent(s, c) then ListEnded(s, k, c)
    else if missing != {} then Staged(s, k, AwaitMissingImport(missing))
    else Staged(s, k, AwaitImport)
  }

  /** Metadata is merged only for the newest request of the newest profile mutation. */
  function RepliedMetadata(s: State, k: CallId, c: Call, all: map<InstanceId, ComputerStatus>): State
    requires c.kind.Metadata?
  {
    var id := c.kind.id;
    var newest := Lookup(s.profileVersions, id) == Some(c.kind.version)
               && Lookup(s.metadataRequests, id) == Some(c.kind.request);
    var ended := s.(calls := s.calls - {k}, completion := s.completion + 1);
    if newest && id in all && id in s.screen.rows
    then ended.(screen := s.screen.(rows := s.screen.rows[id := s.screen.rows[id].(policy := all[id].policy)]),
                lastApplied := Larger(s.lastApplied, c.servedAt))
    else ended
  }

  /** The second fence of a deletion, put up when the backend has confirmed it. */
  function RepliedDelete(s: State, k: CallId, id: InstanceId): State
    requires k in s.calls
  {
    Staged(s, k, AwaitImport).(epoch := s.epoch + 1, deletion := s.deletion + 1,
      profileVersions := Bumped(s.profileVersions, id),
      history := s.history.(deletedAt := s.history.deletedAt[id := s.now]))
  }

  function Replied(s: State, k: CallId): State
    requires k in s.calls && s.calls[k].reply.Some?
  {
    var c := s.calls[k];
    match c.kind
    case ListAll =>
      if c.reply.value.Statuses? then RepliedList(s, k, c, c.reply.value.all) else ListEnded(s, k, c)
    case Metadata(_, _, _) =>
      if c.reply.value.Statuses? then RepliedMetadata(s, k, c, c.reply.value.all)
      else s.(calls := s.calls - {k}, completion := s.completion + 1)
    case Delete(id, _) => if c.reply.value.Acknowledged? then RepliedDelete(s, k, id) else Finished(s, k)
    case ConnectionCommand(_) => Finished(s, k)
    case _ => if c.reply.value.One? then Staged(s, k, AwaitImport) else Finished(s, k)
  }

  function Imported(s: State, k: CallId): State
    requires k in s.calls && s.calls[k].reply.Some?
  {
    var c := s.calls[k];
    if c.kind.Delete? then
      var id := c.kind.id;
      var w := Removed(s.screen, id, c.kind.incarnation);
      Finished(s.(screen := w, lastApplied := Larger(s.lastApplied, c.servedAt)), k)
    else match c.reply.value
      case Statuses(all) =>
        if !IsCurrent(s, c) then ListEnded(s, k, c)
        else if c.stage.AwaitMissingImport?
        then Staged(s.(screen := ForgottenAll(s.screen, c.stage.missing)), k, AwaitImport)
        else Staged(s.(screen := IngestedAll(s.screen, all)), k, AwaitIngested)
      case One(id, status) =>
        var w := Ingested(s.screen, id, status.snapshot, status.connection, c.kind.CreateNew?);
        Staged(s.(screen := w), k, AwaitIngested)
      case _ => s
  }

  function Settled(s: State, k: CallId): State
    requires k in s.calls && s.calls[k].reply.Some?
  {
    var c := s.calls[k];
    match c.reply.value
      case Statuses(all) =>
        if IsCurrent(s, c) then ListEnded(s.(screen := Reconciled(s.screen, all)), k, c) else ListEnded(s, k, c)
      case One(id, status) =>
        if !Effective(s, c.kind) then Finished(s, k)
        else
          var w := Answered(s.screen, c.kind, id, status);
          Finished(s.(screen := w, lastApplied := Larger(s.lastApplied, c.servedAt)), k)
      case _ => s
  }

  function Apply(s: State, step: Step): State
    requires Enabled(s, step)
  {
    match step
    case StartList(k) =>
      var s' := s.(listRequest := s.listRequest + 1, loading := true);
      s'.(calls := s.calls[k := NewCall(s', ListAll)])
    case StartMetadata(k, id) =>
      var s' := s.(epoch := s.epoch + 1, profileVersions := Bumped(s.profileVersions, id),
                   metadataRequests := Bumped(s.metadataRequests, id));
      s'.(calls := s.calls[k := NewCall(s', Metadata(id, s'.metadataRequests[id], s'.profileVersions[id]))])
    case StartCreate(k) => Begun(s, k, CreateNew, true)
    case StartProfile(k, id) =>
      var versions := Bumped(s.profileVersions, id);
      Begun(s, k, ChangeProfile(id, versions[id]), true).(profileVersions := versions)
    case StartDelete(k, id) =>
      Begun(s, k, Delete(id, s.screen.rows[id].runtime.version.incarnation), true)
        .(profileVersions := Bumped(s.profileVersions, id))
    case StartAction(k, id) => Begun(s, k, RuntimeAction(id), false)
    case StartConnection(k, id) => Begun(s, k, ConnectionCommand(id), false)
    case Serve(k, reply) =>
      s.(now := s.now + 1,
         calls := s.calls[k := s.calls[k].(servedAt := s.now, reply := Some(reply))],
         history := s.history.(births :=
           if reply.One? && reply.id !in s.history.births
           then s.history.births[reply.id := reply.status.snapshot.version.incarnation] else s.history.births))
    case ResumeReply(k) => Replied(s, k)
    case ResumeImport(k) => Imported(s, k)
    case ResumeIngested(k) => Settled(s, k)
    case RuntimeEvent(id, snapshot, connection) => s.(screen := Ingested(s.screen, id, snapshot, connection, false))
  }

  // ---------- Deletion fences ----------

  /** The incarnation is one the Computer can have had. */
  ghost predicate Known(h: History, id: InstanceId, incarnation: nat) {
    id in h.births && h.births[id] <= incarnation
  }

  /** A fenced id has no row, and no creation can get past its fence. */
  ghost predicate IdOk(v: Screen, h: History, id: InstanceId) {
    var c := CellAt(v.cells, id);
    && Fenced(c)
    && (c.live.Some? ==> Known(h, id, c.live.value.version.incarnation))
    && (c.deleted.Some? ==> Known(h, id, c.deleted.value) && id !in v.rows && id in h.deletedAt)
    && (id in v.rows ==> Known(h, id, v.rows[id].runtime.version.incarnation))
  }

  ghost predicate FencesInv(s: State) {
    forall id :: IdOk(s.screen, s.history, id)
  }

  ghost predicate StatusesOk(h: History, all: map<InstanceId, ComputerStatus>) {
    forall id :: id in all ==> Known(h, id, all[id].snapshot.version.incarnation)
  }

  /** Answers fit their questions; a creation carries the first incarnation of its Computer. */
  ghost predicate ReplyOk(h: History, kind: Kind, reply: Reply) {
    match reply
    case Failure => true
    case Acknowledged => kind.Delete? || kind.ConnectionCommand?
    case Statuses(all) => (kind.ListAll? || kind.Metadata?) && StatusesOk(h, all)
    case One(id, status) =>
      && (kind.CreateNew? || kind.ChangeProfile? || kind.RuntimeAction?)
      && Known(h, id, status.snapshot.version.incarnation)
      && (kind.CreateNew? ==> h.births[id] == status.snapshot.version.incarnation)
  }

  ghost predicate StageOk(h: History, c: Call)
    requires c.reply.Some?
  {
    match c.stage
    case AwaitReply => true
    case AwaitMissingImport(_) => c.kind.ListAll? && c.reply.value.Statuses?
    case AwaitIngested => c.reply.value.One? || (c.reply.value.Statuses? && c.kind.ListAll?)
    case AwaitImport =>
      || c.reply.value.One?
      || (c.reply.value.Statuses? && c.kind.ListAll?)
      || (c.kind.Delete? && c.kind.id in h.deletedAt)
  }

  ghost predicate CallOk(h: History, c: Call) {
    && (c.stage.AwaitReply? || c.reply.Some?)
    && (c.reply.Some? ==> ReplyOk(h, c.kind, c.reply.value) && StageOk(h, c))
    && (c.kind.Delete? ==> Known(h, c.kind.id, c.kind.incarnation))
  }

  ghost predicate CallsInv(s: State) {
    forall k :: k in s.calls ==> CallOk(s.history, s.calls[k])
  }

  lemma CellAfterReceiving(v: Screen, all: map<InstanceId, ComputerStatus>, id: InstanceId)
    ensures var w := IngestedAll(v, all);
      && CellAt(w.cells, id) == (
        if id in all then Received(CellAt(v.cells, id), all[id].snapshot, Some(all[id].connection), true)
        else CellAt(v.cells, id))
      && Lookup(w.rows, id) == (
        if id in v.rows && id in all then Some(Announced(v.rows[id], CellAt(w.cells, id))) else Lookup(v.rows, id))
  {}

  lemma IngestedAllKeepsId(v: Screen, h: History, all: map<InstanceId, ComputerStatus>, id: InstanceId)
    requires IdOk(v, h, id) && StatusesOk(h, all)
    ensures IdOk(IngestedAll(v, all), h, id)
  {
    CellAfterReceiving(v, all, id);
  }

  lemma IngestedKeepsId(v: Screen, h: History, at: InstanceId, snapshot: Snapshot, connection: ConnectionInput,
                        rediscovery: bool, id: InstanceId)
    requires IdOk(v, h, id) && Known(h, at, snapshot.version.incarnation)
    ensures IdOk(Ingested(v, at, snapshot, connection, rediscovery), h, id)
  {}

  lemma ForgottenAllKeepsId(v: Screen, h: History, ids: set<InstanceId>, id: InstanceId)
    requires IdOk(v, h, id)
    ensures IdOk(ForgottenAll(v, ids), h, id)
  {}

  lemma RemovedKeepsId(v: Screen, h: History, at: InstanceId, incarnation: nat, id: InstanceId)
    requires IdOk(v, h, id) && Known(h, at, incarnation) && at in h.deletedAt
    ensures IdOk(Removed(v, at, incarnation), h, id)
  {}

  lemma MergedIsKnown(v: Screen, h: History, id: InstanceId, incoming: Row)
    requires IdOk(v, h, id) && Known(h, id, incoming.runtime.version.incarnation)
    ensures Known(h, id, Merged(v, id, incoming).runtime.version.incarnation)
  {}

  lemma ReconciledKeepsId(v: Screen, h: History, all: map<InstanceId, ComputerStatus>, id: InstanceId)
    requires IdOk(v, h, id) && StatusesOk(h, all)
    ensures IdOk(Reconciled(v, all), h, id)
  {
    if id in all { MergedIsKnown(v, h, id, RowOf(all[id])); }
  }

  lemma AnsweredKeepsId(v: Screen, h: History, kind: Kind, at: InstanceId, status: ComputerStatus, id: InstanceId)
    requires IdOk(v, h, at) && IdOk(v, h, id) && Known(h, at, status.snapshot.version.incarnation)
    ensures IdOk(Answered(v, kind, at, status), h, id)
  {
    MergedIsKnown(v, h, at, RowOf(status));
    if at in v.rows { MergedIsKnown(v, h, at, v.rows[at].(runtime := status.snapshot)); }
  }

  lemma RepliedKeepsId(s: State, k: CallId, id: InstanceId)
    requires FencesInv(s) && CallsInv(s) && Enabled(s, ResumeReply(k))
    ensures IdOk(Replied(s, k).screen, Replied(s, k).history, id)
  {
    assert IdOk(s.screen, s.history, id);
    if s.calls[k].kind.Metadata? { RepliedMetadataKeepsId(s, k, id); }
  }

  lemma RepliedMetadataKeepsId(s: State, k: CallId, id: InstanceId)
    requires IdOk(s.screen, s.history, id) && Enabled(s, ResumeReply(k)) && s.calls[k].kind.Metadata?
    ensures IdOk(Replied(s, k).screen, Replied(s, k).history, id)
  {}

  lemma ImportedKeepsId(s: State, k: CallId, id: InstanceId)
    requires FencesInv(s) && CallsInv(s) && Enabled(s, ResumeImport(k))
    ensures IdOk(Imported(s, k).screen, Imported(s, k).history, id)
  {
    var c, v, h := s.calls[k], s.screen, s.history;
    assert IdOk(v, h, id) && CallOk(h, c);
    if c.kind.Delete? {
      RemovedKeepsId(v, h, c.kind.id, c.kind.incarnation, id);
    } else {
      match c.reply.value
      case Statuses(all) =>
        IngestedAllKeepsId(v, h, all, id);
        if c.stage.AwaitMissingImport? { ForgottenAllKeepsId(v, h, c.stage.missing, id); }
      case One(at, status) =>
        IngestedKeepsId(v, h, at, status.snapshot, status.connection, c.kind.CreateNew?, id);
      case _ =>
    }
  }

  lemma SettledKeepsId(s: State, k: CallId, id: InstanceId)
    requires FencesInv(s) && CallsInv(s) && Enabled(s, ResumeIngested(k))
    ensures IdOk(Settled(s, k).screen, Settled(s, k).history, id)
  {
    var c, v, h := s.calls[k], s.screen, s.history;
    assert IdOk(v, h, id) && CallOk(h, c);
    match c.reply.value
    case Statuses(all) => ReconciledKeepsId(v, h, all, id);
    case One(at, status) =>
      assert IdOk(v, h, at);
      AnsweredKeepsId(v, h, c.kind, at, status, id);
    case _ =>
  }

  lemma StepKeepsFences(s: State, step: Step)
    requires FencesInv(s) && CallsInv(s) && Enabled(s, step)
    ensures FencesInv(Apply(s, step))
  {
    forall id ensures IdOk(Apply(s, step).screen, Apply(s, step).history, id) {
      assert IdOk(s.screen, s.history, id);
      match step
      case RuntimeEvent(at, snapshot, connection) =>
        IngestedKeepsId(s.screen, s.history, at, snapshot, connection, false, id);
      case ResumeReply(k) => RepliedKeepsId(s, k, id);
      case ResumeImport(k) => ImportedKeepsId(s, k, id);
      case ResumeIngested(k) => SettledKeepsId(s, k, id);
      case _ =>
    }
  }

  /** Births stay, and confirmed deletions stay confirmed. */
  ghost predicate Extends(h: History, later: History) {
    && (forall id :: id in h.births ==> id in later.births && later.births[id] == h.births[id])
    && (forall id :: id in h.deletedAt ==> id in later.deletedAt)
  }

  ghost predicate OthersStay(s: State, s': State, k: CallId) {
    forall o :: o != k ==> (o in s'.calls <==> o in s.calls) && (o in s.calls ==> s'.calls[o] == s.calls[o])
  }

  /** A resumed call moves to another stage, or ends: a mutation gives back what it added to the
      counter, and the latest list settles `loading`. */
  ghost predicate Resumed(s: State, s': State, k: CallId)
    requires k in s.calls
  {
    var c := s.calls[k];
    && OthersStay(s, s', k) && s'.listRequest == s.listRequest
    && (k in s'.calls ==>
      s'.calls[k] == c.(stage := s'.calls[k].stage) && s'.pending == s.pending && s'.loading == s.loading)
    && (k !in s'.calls && Counts(c.kind) ==>
      s'.pending == (if s.pending == 0 then 0 else s.pending - 1) && s'.loading == (s'.pending > 0))
    && (k !in s'.calls && !Counts(c.kind) ==>
      && s'.pending == s.pending
      && s'.loading == if c.kind.ListAll? && c.listRequest == s.listRequest then s.pending > 0 else s.loading)
    && (ClockOk(s) && c.servedAt <= s.now ==> ClockOk(s'))
    && (k in s'.calls && CallOk(s.history, c) ==> CallOk(s'.history, s'.calls[k]))
  }

  /** Whatever a step applies or confirms, it also counts. */
  ghost predicate Advances(s: State, s': State) {
    && s.lastApplied <= s'.lastApplied
    && s.now <= s'.now && s.completion <= s'.completion && s.deletion <= s'.deletion && s.epoch <= s'.epoch
    && (s'.completion == s.completion ==> s'.lastApplied == s.lastApplied)
    && (s'.deletion == s.deletion ==> s'.history.deletedAt == s.history.deletedAt)
    && Extends(s.history, s'.history)
  }

  ghost predicate ClockOk(s: State) {
    s.lastApplied <= s.now && forall id :: id in s.history.deletedAt ==> s.history.deletedAt[id] <= s.now
  }

  ghost predicate Progresses(s: State, s': State, k: CallId)
    requires k in s.calls
  {
    Advances(s, s') && Resumed(s, s', k)
  }

  /** The three ways in which a resumption leaves its call, whatever it does to the screen. */
  lemma StagedProgresses(s: State, k: CallId, w: Screen, stage: Stage)
    requires k in s.calls && CallOk(s.history, s.calls[k].(stage := stage))
    ensures Progresses(s, Staged(s.(screen := w), k, stage), k)
  {}

  lemma ListEndedProgresses(s: State, k: CallId, w: Screen)
    requires k in s.calls && s.calls[k].kind.ListAll?
    ensures Progresses(s, ListEnded(s.(screen := w), k, s.calls[k]), k)
  {}

  lemma FinishedProgresses(s: State, k: CallId, w: Screen, applied: nat)
    requires k in s.calls && Counts(s.calls[k].kind)
    requires applied == s.lastApplied || applied == Larger(s.lastApplied, s.calls[k].servedAt)
    ensures Progresses(s, Finished(s.(screen := w, lastApplied := applied), k), k)
  {}

  lemma RepliedListProgresses(s: State, k: CallId, all: map<InstanceId, ComputerStatus>)
    requires Enabled(s, ResumeReply(k)) && CallOk(s.history, s.calls[k]) && s.calls[k].kind.ListAll?
    requires s.calls[k].reply == Some(Statuses(all))
    ensures Progresses(s, RepliedList(s, k, s.calls[k], all), k)
  {
    var missing := s.screen.rows.Keys - all.Keys;
    ListEndedProgresses(s, k, s.screen);
    StagedProgresses(s, k, s.screen, AwaitMissingImport(missing));
    StagedProgresses(s, k, s.screen, AwaitImport);
  }

  lemma MetadataEndedProgresses(s: State, k: CallId, w: Screen, applied: nat)
    requires k in s.calls && s.calls[k].kind.Metadata?
    requires applied == s.lastApplied || applied == Larger(s.lastApplied, s.calls[k].servedAt)
    ensures Progresses(s,
      s.(calls := s.calls - {k}, completion := s.completion + 1, screen := w, lastApplied := applied), k)
  {}

  lemma RepliedMetadataProgresses(s: State, k: CallId, all: map<InstanceId, ComputerStatus>)
    requires Enabled(s, ResumeReply(k)) && s.calls[k].kind.Metadata?
    ensures Progresses(s, RepliedMetadata(s, k, s.calls[k], all), k)
  {
    var s' := RepliedMetadata(s, k, s.calls[k], all);
    MetadataEndedProgresses(s, k, s'.screen, s'.lastApplied);
  }

  lemma RepliedDeleteProgresses(s: State, k: CallId, id: InstanceId)
    requires Enabled(s, ResumeReply(k)) && s.calls[k].kind.Delete? && s.calls[k].kind.id == id
    ensures Progresses(s, RepliedDelete(s, k, id), k)
  {}

  lemma RepliedProgresses(s: State, k: CallId)
    requires Enabled(s, ResumeReply(k)) && CallOk(s.history, s.calls[k])
    ensures Progresses(s, Replied(s, k), k)
  {
    var c := s.calls[k];
    match c.kind
    case ListAll =>
      if c.reply.value.Statuses? { RepliedListProgresses(s, k, c.reply.value.all); }
      else { ListEndedProgresses(s, k, s.screen); }
    case Metadata(_, _, _) =>
      if c.reply.value.Statuses? { RepliedMetadataProgresses(s, k, c.reply.value.all); }
      else { MetadataEndedProgresses(s, k, s.screen, s.lastApplied); }
    case Delete(id, _) =>
      RepliedDeleteProgresses(s, k, id);
      FinishedProgresses(s, k, s.screen, s.lastApplied);
    case _ =>
      FinishedProgresses(s, k, s.screen, s.lastApplied);
      if c.reply.value.One? { StagedProgresses(s, k, s.screen, AwaitImport); }
  }

  lemma ImportedProgresses(s: State, k: CallId)
    requires Enabled(s, ResumeImport(k)) && CallOk(s.history, s.calls[k])
    ensures Progresses(s, Imported(s, k), k)
  {
    var c, s' := s.calls[k], Imported(s, k);
    if c.kind.Delete? {
      FinishedProgresses(s, k, s'.screen, s'.lastApplied);
    } else if c.reply.value.Statuses? && !IsCurrent(s, c) {
      ListEndedProgresses(s, k, s.screen);
    } else if c.reply.value.Statuses? && c.stage.AwaitMissingImport? {
      StagedProgresses(s, k, s'.screen, AwaitImport);
    } else {
      StagedProgresses(s, k, s'.screen, AwaitIngested);
    }
  }

  lemma SettledProgresses(s: State, k: CallId)
    requires Enabled(s, ResumeIngested(k)) && CallOk(s.history, s.calls[k])
    ensures Progresses(s, Settled(s, k), k)
  {
    var s' := Settled(s, k);
    if s.calls[k].reply.value.Statuses? {
      ListEndedProgresses(s, k, s'.screen);
    } else {
      FinishedProgresses(s, k, s'.screen, s'.lastApplied);
    }
  }

  predicate IsResumption(step: Step) {
    step.ResumeReply? || step.ResumeImport? || step.ResumeIngested?
  }

  lemma StepAdvances(s: State, step: Step)
    requires Enabled(s, step) && CallsInv(s)
    ensures Advances(s, Apply(s, step))
    ensures if step.RuntimeEvent? then Apply(s, step).calls == s.calls else OthersStay(s, Apply(s, step), step.call)
    ensures if IsResumption(step) then Resumed(s, Apply(s, step), step.call) else ClockOk(s) ==> ClockOk(Apply(s, step))
  {
    match step
    case ResumeReply(k) => RepliedProgresses(s, k);
    case ResumeImport(k) => ImportedProgresses(s, k);
    case ResumeIngested(k) => SettledProgresses(s, k);
    case Serve(k, reply) => ServiceAdvances(s, k, reply);
    case RuntimeEvent(_, _, _) =>
    case _ => StartAdvances(s, step);
  }

  lemma StartAdvances(s: State, step: Step)
    requires Enabled(s, step) && !step.RuntimeEvent? && !step.Serve? && !IsResumption(step)
    ensures Advances(s, Apply(s, step)) && OthersStay(s, Apply(s, step), step.call)
    ensures ClockOk(s) ==> ClockOk(Apply(s, step))
  {}

  lemma ServiceAdvances(s: State, k: CallId, reply: Reply)
    requires Enabled(s, Serve(k, reply))
    ensures Advances(s, Apply(s, Serve(k, reply))) && OthersStay(s, Apply(s, Serve(k, reply)), k)
    ensures ClockOk(s) ==> ClockOk(Apply(s, Serve(k, reply)))
  {}

  lemma CallStaysOk(h: History, later: History, c: Call)
    requires CallOk(h, c) && Extends(h, later)
    ensures CallOk(later, c)
  {}

  lemma StartedCallOk(s: State, step: Step)
    requires FencesInv(s) && CallsInv(s) && Enabled(s, step) && !step.RuntimeEvent? && !IsResumption(step)
    ensures step.call in Apply(s, step).calls && CallOk(Apply(s, step).history, Apply(s, step).calls[step.call])
  {
    if step.StartDelete? { assert IdOk(s.screen, s.history, step.id); }
  }

  lemma StepKeepsCalls(s: State, step: Step)
    requires FencesInv(s) && CallsInv(s) && Enabled(s, step)
    ensures CallsInv(Apply(s, step))
  {
    var s' := Apply(s, step);
    StepAdvances(s, step);
    forall k | k in s'.calls ensures CallOk(s'.history, s'.calls[k]) {
      if !step.RuntimeEvent? && k == step.call {
        if !IsResumption(step) { StartedCallOk(s, step); }
      } else {
        CallStaysOk(s.history, s'.history, s.calls[k]);
      }
    }
  }

  // ---------- Times ----------

  /** A call that has not been overtaken was issued after every mutation response applied so far,
      and after every confirmed deletion. */
  ghost predicate TimesOk(s: State, c: Call) {
    && c.issuedAt <= s.now
    && c.completion <= s.completion && c.deletion <= s.deletion
    && (c.reply.Some? ==> c.issuedAt <= c.servedAt <= s.now)
    && (c.completion == s.completion ==> s.lastApplied <= c.issuedAt)
    && (c.deletion == s.deletion ==> forall id :: id in s.history.deletedAt ==> s.history.deletedAt[id] <= c.issuedAt)
  }

  ghost predicate TimesInv(s: State) {
    ClockOk(s) && forall k :: k in s.calls ==> TimesOk(s, s.calls[k])
  }

  lemma TimesStayOk(s: State, s': State, c: Call)
    requires TimesOk(s, c) && Advances(s, s')
    ensures TimesOk(s', c)
  {}

  lemma StepKeepsTimes(s: State, step: Step)
    requires TimesInv(s) && CallsInv(s) && Enabled(s, step)
    ensures TimesInv(Apply(s, step))
  {
    var s' := Apply(s, step);
    StepAdvances(s, step);
    forall k | k in s'.calls ensures TimesOk(s', s'.calls[k]) {
      if k in s.calls { TimesStayOk(s, s', s.calls[k]); }
    }
  }

  // ---------- Counters ----------

  ghost function Counted(calls: map<CallId, Call>): set<CallId> {
    set k | k in calls && Counts(calls[k].kind)
  }

  ghost predicate IsLatestList(s: State, k: CallId) {
    k in s.calls && s.calls[k].kind.ListAll? && s.calls[k].listRequest == s.listRequest
  }

  /** The counter is the number of mutations in flight; `loading` is on while there are any, and
      otherwise only while the latest list is in flight. */
  ghost predicate CountersInv(s: State) {
    && s.pending == |Counted(s.calls)|
    && (s.pending > 0 ==> s.loading)
    && (s.loading && s.pending == 0 ==> exists k :: IsLatestList(s, k))
  }

  lemma CountedAfterChange(calls: map<CallId, Call>, k: CallId, c: Call)
    ensures Counted(calls - {k}) == Counted(calls) - {k}
    ensures Counted(calls[k := c]) == if Counts(c.kind) then Counted(calls) + {k} else Counted(calls) - {k}
  {}

  /** Every mutation takes back exactly what it added: the clamp at zero never acts. */
  lemma ResumptionKeepsCounters(s: State, s': State, k: CallId)
    requires CountersInv(s) && k in s.calls && Resumed(s, s', k)
    ensures CountersInv(s')
  {
    ResumptionKeepsCount(s, s', k);
    if s'.loading && s'.pending == 0 {
      var w :| IsLatestList(s, w);
      assert IsLatestList(s', w);
    }
  }

  lemma ResumptionKeepsCount(s: State, s': State, k: CallId)
    requires s.pending == |Counted(s.calls)| && k in s.calls && Resumed(s, s', k)
    ensures s'.pending == |Counted(s'.calls)|
  {
    var before, now := Counted(s.calls), Counted(s'.calls);
    if k in s'.calls || !Counts(s.calls[k].kind) {
      assert now == before;
    } else {
      assert now == before - {k} && k in before;
    }
  }

  /** The step begins a mutation. */
  predicate BeginsMutation(step: Step) {
    step.StartCreate? || step.StartProfile? || step.StartDelete? || step.StartAction? || step.StartConnection?
  }

  lemma MutationCounts(s: State, step: Step)
    requires Enabled(s, step) && BeginsMutation(step)
    ensures var s', k := Apply(s, step), step.call;
      && k in s'.calls && s'.calls == s.calls[k := s'.calls[k]] && Counts(s'.calls[k].kind)
      && s'.pending == s.pending + 1 && s'.loading
  {}

  lemma MutationKeepsCounters(s: State, step: Step)
    requires CountersInv(s) && Enabled(s, step) && BeginsMutation(step)
    ensures CountersInv(Apply(s, step))
  {
    MutationCounts(s, step);
    CountedAfterChange(s.calls, step.call, Apply(s, step).calls[step.call]);
  }

  lemma StartListKeepsCounters(s: State, k: CallId)
    requires CountersInv(s) && Enabled(s, StartList(k))
    ensures CountersInv(Apply(s, StartList(k)))
  {
    var s' := Apply(s, StartList(k));
    CountedAfterChange(s.calls, k, s'.calls[k]);
    assert IsLatestList(s', k);
  }

  lemma StartMetadataKeepsCounters(s: State, k: CallId, id: InstanceId)
    requires CountersInv(s) && Enabled(s, StartMetadata(k, id))
    ensures CountersInv(Apply(s, StartMetadata(k, id)))
  {
    var s' := Apply(s, StartMetadata(k, id));
    CountedAfterChange(s.calls, k, s'.calls[k]);
    if s.loading && s.pending == 0 {
      var w :| IsLatestList(s, w);
      assert IsLatestList(s', w);
    }
  }

  lemma ServiceKeepsCounters(s: State, k: CallId, reply: Reply)
    requires CountersInv(s) && Enabled(s, Serve(k, reply))
    ensures CountersInv(Apply(s, Serve(k, reply)))
  {
    var s' := Apply(s, Serve(k, reply));
    CountedAfterChange(s.calls, k, s'.calls[k]);
    if s.loading && s.pending == 0 {
      var w :| IsLatestList(s, w);
      assert IsLatestList(s', w);
    }
  }

  lemma EventKeepsCounters(s: State, step: Step)
    requires CountersInv(s) && Enabled(s, step) && step.RuntimeEvent?
    ensures CountersInv(Apply(s, step))
  {
    if s.loading && s.pending == 0 {
      var w :| IsLatestList(s, w);
      assert IsLatestList(Apply(s, step), w);
    }
  }

  lemma StepKeepsCounters(s: State, step: Step)
    requires CountersInv(s) && CallsInv(s) && Enabled(s, step)
    ensures CountersInv(Apply(s, step))
  {
    if BeginsMutation(step) {
      MutationKeepsCounters(s, step);
    } else if IsResumption(step) {
      StepAdvances(s, step);
      ResumptionKeepsCounters(s, Apply(s, step), step.call);
    } else if step.StartList? {
      StartListKeepsCounters(s, step.call);
    } else if step.StartMetadata? {
      StartMetadataKeepsCounters(s, step.call, step.id);
    } else if step.Serve? {
      ServiceKeepsCounters(s, step.call, step.reply);
    } else {
      EventKeepsCounters(s, step);
    }
  }

  // ---------- Runs ----------

  ghost predicate Inv(s: State) {
    FencesInv(s) && CallsInv(s) && TimesInv(s) && CountersInv(s)
  }

  /** The application starts with an empty list, and nothing in flight. */
  ghost predicate Init(s: State) {
    && s.screen == Screen(map[], map[]) && s.calls == map[] && s.history.deletedAt == map[]
    && s.pending == 0 && !s.loading && s.lastApplied == 0
  }

  lemma StepKeepsInv(s: State, step: Step)
    requires Inv(s) && Enabled(s, step)
    ensures Inv(Apply(s, step))
  {
    StepKeepsFences(s, step);
    StepKeepsCalls(s, step);
    StepKeepsTimes(s, step);
    StepKeepsCounters(s, step);
  }

  ghost predicate IsStep(s: State, step: Step, s': State) {
    Enabled(s, step) && s' == Apply(s, step)
  }

  ghost predicate IsRun(states: seq<State>, steps: seq<Step>) {
    && |states| == |steps| + 1
    && Init(states[0])
    && forall i {:trigger steps[i]} :: 0 <= i < |steps| ==> IsStep(states[i], steps[i], states[i + 1])
  }

  lemma {:induction false} RunKeepsInv(states: seq<State>, steps: seq<Step>, i: nat)
    requires IsRun(states, steps) && i < |states|
    ensures Inv(states[i])
  {
    if i > 0 {
      RunKeepsInv(states, steps, i - 1);
      NextKeepsInv(states[i - 1], steps[i - 1], states[i]);
    } else {
      InitIsInv(states[0]);
    }
  }

  lemma InitIsInv(s: State)
    requires Init(s)
    ensures Inv(s)
  {}

  lemma NextKeepsInv(s: State, step: Step, s': State)
    requires Inv(s) && IsStep(s, step, s')
    ensures Inv(s')
  {
    StepKeepsInv(s, step);
  }

  // ---------- Deleted Computers stay away ----------

  /** A list is ingested that was issued after the deletion of the id was confirmed, and that
      reports an incarnation above the fence. */
  ghost predicate Rediscovers(s: State, step: Step, id: InstanceId) {
    && step.ResumeImport? && step.call in s.calls
    && var c := s.calls[step.call];
      && c.kind.ListAll? && c.reply.Some? && c.reply.value.Statuses?
      && id in s.history.deletedAt && s.history.deletedAt[id] <= c.issuedAt
      && id in c.reply.value.all && IsDeleted(s.screen, id)
      && c.reply.value.all[id].snapshot.version.incarnation > s.screen.cells[id].deleted.value
  }

  /** The fence of a deleted Computer, if it still stands. */
  function FenceOf(s: State, id: InstanceId): Option<nat> {
    CellAt(s.screen.cells, id).deleted
  }

  ghost predicate FenceStands(s: State, id: InstanceId, fence: nat) {
    FenceOf(s, id).Some? && FenceOf(s, id).value >= fence
  }

  /** Only a list issued after the deletion, with a strictly newer incarnation, opens a fence: no
      event, no mutation response, no creation and no earlier list does. */
  lemma StepKeepsFence(s: State, step: Step, id: InstanceId, fence: nat)
    requires Inv(s) && Enabled(s, step) && FenceStands(s, id, fence) && !Rediscovers(s, step, id)
    ensures FenceStands(Apply(s, step), id, fence)
  {
    assert IdOk(s.screen, s.history, id);
    match step
    case ResumeImport(k) => ImportKeepsFence(s, k, id, fence);
    case ResumeReply(k) => ReplyKeepsCells(s, k);
    case ResumeIngested(k) => SettlingKeepsCells(s, k);
    case _ =>
  }

  lemma ImportKeepsFence(s: State, k: CallId, id: InstanceId, fence: nat)
    requires Inv(s) && Enabled(s, ResumeImport(k)) && FenceStands(s, id, fence) && !Rediscovers(s, ResumeImport(k), id)
    ensures FenceStands(Imported(s, k), id, fence)
  {
    var c := s.calls[k];
    assert CallOk(s.history, c) && TimesOk(s, c) && IdOk(s.screen, s.history, id);
    if c.reply.value.Statuses? {
      if c.stage == AwaitImport && IsCurrent(s, c) { IngestedListKeepsFence(s, k, id, fence); }
    } else if c.reply.value.One? {
      IngestedStatusKeepsFence(s, c, id, fence);
    }
  }

  lemma IngestedListKeepsFence(s: State, k: CallId, id: InstanceId, fence: nat)
    requires k in s.calls && s.calls[k].reply.Some? && s.calls[k].reply.value.Statuses? && s.calls[k].kind.ListAll?
    requires IsCurrent(s, s.calls[k]) && TimesOk(s, s.calls[k]) && IdOk(s.screen, s.history, id)
    requires FenceStands(s, id, fence) && !Rediscovers(s, ResumeImport(k), id)
    ensures FenceStands(s.(screen := IngestedAll(s.screen, s.calls[k].reply.value.all)), id, fence)
  {
    CellAfterReceiving(s.screen, s.calls[k].reply.value.all, id);
  }

  /** A single status is trusted only as the answer to a creation, which no fence lets through. */
  lemma IngestedStatusKeepsFence(s: State, c: Call, id: InstanceId, fence: nat)
    requires CallOk(s.history, c) && c.reply.Some? && c.reply.value.One? && IdOk(s.screen, s.history, id)
    requires FenceStands(s, id, fence)
    ensures var status := c.reply.value.status;
      FenceStands(s.(screen := Ingested(s.screen, c.reply.value.id, status.snapshot, status.connection,
                                        c.kind.CreateNew?)), id, fence)
  {}

  lemma ReplyKeepsCells(s: State, k: CallId)
    requires Enabled(s, ResumeReply(k))
    ensures Replied(s, k).screen.cells == s.screen.cells
  {}

  lemma SettlingKeepsCells(s: State, k: CallId)
    requires Enabled(s, ResumeIngested(k))
    ensures Settled(s, k).screen.cells == s.screen.cells
  {}

  /** The step with which the deletion of an id takes effect. */
  ghost predicate Deletes(s: State, step: Step, id: InstanceId) {
    step.ResumeImport? && step.call in s.calls && s.calls[step.call].kind.Delete? && s.calls[step.call].kind.id == id
  }

  /** The fence is no lower than the shown incarnation, the authoritative one, and every fence
      before. */
  lemma DeletionPutsUpFence(s: State, step: Step, id: InstanceId)
    requires Enabled(s, step) && Deletes(s, step, id)
    ensures var c, s' := CellAt(s.screen.cells, id), Apply(s, step);
      && FenceStands(s', id, s.calls[step.call].kind.incarnation)
      && (c.live.Some? ==> FenceStands(s', id, c.live.value.version.incarnation))
      && (c.retired.Some? ==> FenceStands(s', id, c.retired.value))
      && (c.deleted.Some? ==> FenceStands(s', id, c.deleted.value))
  {}

  /** No step in the range rediscovers the id. */
  ghost predicate StaysDeleted(states: seq<State>, steps: seq<Step>, i: nat, j: nat, id: InstanceId)
    requires |states| == |steps| + 1 && j < |states|
  {
    forall m {:trigger steps[m]} :: i <= m < j ==> !Rediscovers(states[m], steps[m], id)
  }

  /** From the moment a deletion takes effect, the Computer is absent from the list until it is
      rediscovered, in every later state of every run. */
  lemma {:induction false} DeletedStaysAway(states: seq<State>, steps: seq<Step>, i: nat, j: nat, id: InstanceId)
    requires IsRun(states, steps) && i < j < |states|
    requires Deletes(states[i], steps[i], id)
    requires StaysDeleted(states, steps, i + 1, j, id)
    ensures id !in states[j].screen.rows
    ensures FenceOf(states[i + 1], id).Some? && FenceStands(states[j], id, FenceOf(states[i + 1], id).value)
  {
    DeletionPutsUpFence(states[i], steps[i], id);
    assert FenceOf(states[i + 1], id).Some?;
    FenceKept(states, steps, i + 1, j, id, FenceOf(states[i + 1], id).value);
    RunKeepsInv(states, steps, j);
    assert IdOk(states[j].screen, states[j].history, id);
  }

  lemma {:induction false} FenceKept(states: seq<State>, steps: seq<Step>, i: nat, j: nat, id: InstanceId, fence: nat)
    requires IsRun(states, steps) && i <= j < |states| && FenceStands(states[i], id, fence)
    requires StaysDeleted(states, steps, i, j, id)
    ensures FenceStands(states[j], id, fence)
  {
    if i < j {
      DeletedSooner(states, steps, i, j, id);
      FenceKept(states, steps, i, j - 1, id, fence);
      FenceKeptOnce(states, steps, i, j, id, fence);
    }
  }

  lemma DeletedSooner(states: seq<State>, steps: seq<Step>, i: nat, j: nat, id: InstanceId)
    requires |states| == |steps| + 1 && 0 < j < |states| && StaysDeleted(states, steps, i, j, id)
    ensures StaysDeleted(states, steps, i, j - 1, id)
  {}

  lemma FenceKeptOnce(states: seq<State>, steps: seq<Step>, i: nat, j: nat, id: InstanceId, fence: nat)
    requires IsRun(states, steps) && i < j < |states| && FenceStands(states[j - 1], id, fence)
    requires StaysDeleted(states, steps, i, j, id)
    ensures FenceStands(states[j], id, fence)
  {
    RunKeepsInv(states, steps, j - 1);
    assert IsStep(states[j - 1], steps[j - 1], states[j]);
    assert !Rediscovers(states[j - 1], steps[j - 1], id);
    StepKeepsFence(states[j - 1], steps[j - 1], id, fence);
  }

  // ---------- Applied lists are fresh ----------

  /** A list takes effect on the rows. */
  ghost predicate AppliesList(s: State, step: Step, s': State) {
    && step.ResumeIngested? && step.call in s.calls && s.calls[step.call].reply.Some?
    && s.calls[step.call].reply.value.Statuses? && s'.screen != s.screen
  }

  /** A list that takes effect on the rows was read by the backend no earlier than any mutation
      response already applied, and no earlier than the confirmation of any deletion. */
  lemma AppliedListIsFresh(states: seq<State>, steps: seq<Step>, i: nat)
    requires IsRun(states, steps) && i < |steps|
    requires AppliesList(states[i], steps[i], states[i + 1])
    ensures var s, c := states[i], states[i].calls[steps[i].call];
      && s.lastApplied <= c.issuedAt <= c.servedAt
      && forall id :: id in s.history.deletedAt ==> s.history.deletedAt[id] <= c.servedAt
  {
    RunKeepsInv(states, steps, i);
    assert IsStep(states[i], steps[i], states[i + 1]);
    AppliedListIsCurrent(states[i], steps[i]);
    assert TimesOk(states[i], states[i].calls[steps[i].call]);
  }

  lemma AppliedListIsCurrent(s: State, step: Step)
    requires Enabled(s, step) && AppliesList(s, step, Apply(s, step))
    ensures IsCurrent(s, s.calls[step.call])
  {}

  /** A mutation response takes effect on the rows, and the call ends. */
  ghost predicate TakesEffect(s: State, step: Step)
    requires Enabled(s, step)
  {
    && IsResumption(step) && !s.calls[step.call].kind.ListAll?
    && step.call !in Apply(s, step).calls && Apply(s, step).screen != s.screen
  }

  lemma EffectIsRemembered(s: State, step: Step)
    requires CallsInv(s) && Enabled(s, step) && TakesEffect(s, step)
    ensures Apply(s, step).lastApplied >= s.calls[step.call].servedAt
  {
    assert CallOk(s.history, s.calls[step.call]);
  }

  lemma {:induction false} LastAppliedNeverGoesBack(states: seq<State>, steps: seq<Step>, i: nat, j: nat)
    requires IsRun(states, steps) && i <= j < |states|
    ensures states[i].lastApplied <= states[j].lastApplied
  {
    if i < j {
      LastAppliedNeverGoesBack(states, steps, i, j - 1);
      LastAppliedGrows(states, steps, j - 1);
    }
  }

  lemma LastAppliedGrows(states: seq<State>, steps: seq<Step>, i: nat)
    requires IsRun(states, steps) && i < |steps|
    ensures states[i].lastApplied <= states[i + 1].lastApplied
  {
    RunKeepsInv(states, steps, i);
    assert IsStep(states[i], steps[i], states[i + 1]);
    StepAdvances(states[i], steps[i]);
  }

  /** A list that takes effect after a mutation response did was read no earlier than that
      response. */
  lemma ListIsNoOlderThanResponse(states: seq<State>, steps: seq<Step>, i: nat, j: nat)
    requires IsRun(states, steps) && i < j < |steps| && TakesEffect(states[i], steps[i])
    requires AppliesList(states[j], steps[j], states[j + 1])
    ensures states[i].calls[steps[i].call].servedAt <= states[j].calls[steps[j].call].servedAt
  {
    RememberedUntil(states, steps, i, j);
    AppliedListIsFresh(states, steps, j);
  }

  lemma RememberedUntil(states: seq<State>, steps: seq<Step>, i: nat, j: nat)
    requires IsRun(states, steps) && i < j < |states| && TakesEffect(states[i], steps[i])
    ensures states[i].calls[steps[i].call].servedAt <= states[j].lastApplied
  {
    assert states[i].calls[steps[i].call].servedAt <= states[i + 1].lastApplied by {
      RememberedInRun(states, steps, i);
    }
    assert states[i + 1].lastApplied <= states[j].lastApplied by {
      LastAppliedNeverGoesBack(states, steps, i + 1, j);
    }
  }

  lemma RememberedInRun(states: seq<State>, steps: seq<Step>, i: nat)
    requires IsRun(states, steps) && i < |steps| && TakesEffect(states[i], steps[i])
    ensures states[i].calls[steps[i].call].servedAt <= states[i + 1].lastApplied
  {
    RunKeepsInv(states, steps, i);
    assert IsStep(states[i], steps[i], states[i + 1]);
    EffectIsRemembered(states[i], steps[i]);
  }

  // ---------- Overtaken lists ----------

  /** Another list begins, or a mutation that changes profiles. */
  predicate Overtakes(step: Step) {
    step.StartList? || step.StartMetadata? || step.StartCreate? || step.StartProfile? || step.StartDelete?
  }

  /** What the call captured is no later than the revisions are now. */
  predicate CapturedOk(s: State, k: CallId) {
    k in s.calls ==> s.calls[k].listRequest <= s.listRequest && s.calls[k].epoch <= s.epoch
  }

  predicate IsOvertaken(s: State, k: CallId) {
    k in s.calls ==> s.calls[k].listRequest < s.listRequest || s.calls[k].epoch < s.epoch
  }

  lemma ResumptionKeepsCaptured(s: State, step: Step, k: CallId)
    requires Enabled(s, step) && CallsInv(s) && IsResumption(step) && CapturedOk(s, k)
    ensures CapturedOk(Apply(s, step), k) && (k in s.calls && IsOvertaken(s, k) ==> IsOvertaken(Apply(s, step), k))
  {
    StepAdvances(s, step);
  }

  lemma StepKeepsCaptured(s: State, step: Step, k: CallId)
    requires Enabled(s, step) && CallsInv(s) && CapturedOk(s, k)
    ensures CapturedOk(Apply(s, step), k)
    ensures k in s.calls && (IsOvertaken(s, k) || Overtakes(step)) ==> IsOvertaken(Apply(s, step), k)
  {
    if IsResumption(step) { ResumptionKeepsCaptured(s, step, k); }
  }

  lemma {:induction false} RunKeepsCaptured(states: seq<State>, steps: seq<Step>, i: nat, k: CallId)
    requires IsRun(states, steps) && i < |states|
    ensures CapturedOk(states[i], k)
  {
    if i > 0 {
      RunKeepsCaptured(states, steps, i - 1, k);
      RunKeepsInv(states, steps, i - 1);
      assert IsStep(states[i - 1], steps[i - 1], states[i]);
      StepKeepsCaptured(states[i - 1], steps[i - 1], k);
    }
  }

  /** A call stays overtaken for as long as it is in flight. */
  lemma {:induction false} OvertakenUntilItEnds(states: seq<State>, steps: seq<Step>, i: nat, j: nat, k: CallId)
    requires IsRun(states, steps) && i < j < |states| && Overtakes(steps[i])
    requires forall m {:trigger states[m]} :: i <= m <= j ==> k in states[m].calls
    ensures IsOvertaken(states[j], k)
  {
    if i + 1 < j { OvertakenUntilItEnds(states, steps, i, j - 1, k); }
    RunKeepsCaptured(states, steps, j - 1, k);
    RunKeepsInv(states, steps, j - 1);
    assert IsStep(states[j - 1], steps[j - 1], states[j]);
    StepKeepsCaptured(states[j - 1], steps[j - 1], k);
  }

  /** A list in flight when another list begins, or a mutation of profiles, never changes the rows. */
  lemma OvertakenListIsDropped(states: seq<State>, steps: seq<Step>, i: nat, j: nat, k: CallId)
    requires IsRun(states, steps) && i < j < |steps| && Overtakes(steps[i])
    requires forall m {:trigger states[m]} :: i <= m <= j ==> k in states[m].calls
    requires IsResumption(steps[j]) && steps[j].call == k
    ensures !AppliesList(states[j], steps[j], states[j + 1])
  {
    OvertakenUntilItEnds(states, steps, i, j, k);
    assert IsStep(states[j], steps[j], states[j + 1]);
    if AppliesList(states[j], steps[j], states[j + 1]) { AppliedListIsCurrent(states[j], steps[j]); }
  }

  // ---------- Superseded profile mutations ----------

  /** A mutation of the Computer's profile, or a reading of its metadata. */
  predicate IsProfileCall(kind: Kind, id: InstanceId) {
    (kind.ChangeProfile? || kind.Metadata?) && kind.id == id
  }

  /** A profile call or a deletion of the Computer begins, or the backend has confirmed its deletion. */
  predicate Supersedes(s: State, step: Step, id: InstanceId) {
    || ((step.StartProfile? || step.StartMetadata? || step.StartDelete?) && step.id == id)
    || (step.ResumeReply? && step.call in s.calls
        && var c := s.calls[step.call]; c.kind.Delete? && c.kind.id == id && c.reply == Some(Acknowledged))
  }

  predicate VersionOk(s: State, k: CallId, id: InstanceId) {
    k in s.calls && IsProfileCall(s.calls[k].kind, id) ==> s.calls[k].kind.version <= At(s.profileVersions, id)
  }

  predicate IsSuperseded(s: State, k: CallId, id: InstanceId) {
    k in s.calls && IsProfileCall(s.calls[k].kind, id) ==> s.calls[k].kind.version < At(s.profileVersions, id)
  }

  lemma VersionsGrow(s: State, step: Step, id: InstanceId)
    requires Enabled(s, step)
    ensures At(s.profileVersions, id) <= At(Apply(s, step).profileVersions, id)
    ensures Supersedes(s, step, id) ==> At(s.profileVersions, id) < At(Apply(s, step).profileVersions, id)
  {
    match step
    case ResumeReply(k) => ReplyRaisesVersions(s, k, id);
    case ResumeImport(k) => assert Imported(s, k).profileVersions == s.profileVersions;
    case ResumeIngested(k) => assert Settled(s, k).profileVersions == s.profileVersions;
    case _ =>
  }

  lemma ReplyRaisesVersions(s: State, k: CallId, id: InstanceId)
    requires k in s.calls && s.calls[k].reply.Some?
    ensures At(s.profileVersions, id) <= At(Replied(s, k).profileVersions, id)
    ensures s.calls[k].kind.Delete? && s.calls[k].kind.id == id && s.calls[k].reply == Some(Acknowledged) ==>
      At(s.profileVersions, id) < At(Replied(s, k).profileVersions, id)
  {}

  lemma StepKeepsVersion(s: State, step: Step, k: CallId, id: InstanceId)
    requires Enabled(s, step) && CallsInv(s) && VersionOk(s, k, id)
    ensures VersionOk(Apply(s, step), k, id)
    ensures k in s.calls && (IsSuperseded(s, k, id) || Supersedes(s, step, id)) ==> IsSuperseded(Apply(s, step), k, id)
  {
    VersionsGrow(s, step, id);
    StepAdvances(s, step);
  }

  lemma {:induction false} RunKeepsVersion(states: seq<State>, steps: seq<Step>, i: nat, k: CallId, id: InstanceId)
    requires IsRun(states, steps) && i < |states|
    ensures VersionOk(states[i], k, id)
  {
    if i > 0 {
      RunKeepsVersion(states, steps, i - 1, k, id);
      RunKeepsInv(states, steps, i - 1);
      assert IsStep(states[i - 1], steps[i - 1], states[i]);
      StepKeepsVersion(states[i - 1], steps[i - 1], k, id);
    }
  }

  lemma {:induction false} SupersededUntilItEnds(states: seq<State>, steps: seq<Step>, i: nat, j: nat, k: CallId,
                                                 id: InstanceId)
    requires IsRun(states, steps) && i < j < |states| && Supersedes(states[i], steps[i], id)
    requires forall m {:trigger states[m]} :: i <= m <= j ==> k in states[m].calls
    ensures IsSuperseded(states[j], k, id)
  {
    if i + 1 < j { SupersededUntilItEnds(states, steps, i, j - 1, k, id); }
    RunKeepsVersion(states, steps, j - 1, k, id);
    RunKeepsInv(states, steps, j - 1);
    assert IsStep(states[j - 1], steps[j - 1], states[j]);
    StepKeepsVersion(states[j - 1], steps[j - 1], k, id);
  }

  /** An answer about a Computer's profile that is in flight when a newer mutation, metadata reading or
      deletion of that Computer begins, or its deletion is confirmed, never settles on its row. */
  lemma SupersededAnswerIsDropped(states: seq<State>, steps: seq<Step>, i: nat, j: nat, k: CallId, id: InstanceId)
    requires IsRun(states, steps) && i < j < |steps| && Supersedes(states[i], steps[i], id)
    requires forall m {:trigger states[m]} :: i <= m <= j ==> k in states[m].calls
    requires IsProfileCall(states[j].calls[k].kind, id)
    requires steps[j] == if states[j].calls[k].kind.Metadata? then ResumeReply(k) else ResumeIngested(k)
    ensures states[j + 1].screen == states[j].screen
  {
    SupersededUntilItEnds(states, steps, i, j, k, id);
    RunKeepsInv(states, steps, j);
    assert IsStep(states[j], steps[j], states[j + 1]);
    assert CallOk(states[j].history, states[j].calls[k]);
  }

  // ---------- Rows only move forward ----------

  /** The row is gone, or shows the same runtime snapshot or a strictly newer one. */
  ghost predicate MovesForward(v: Screen, w: Screen, id: InstanceId) {
    id in v.rows && id in w.rows ==>
      v.rows[id].runtime == w.rows[id].runtime || VersionLess(v.rows[id].runtime.version, w.rows[id].runtime.version)
  }

  lemma ImportMovesForward(s: State, k: CallId, id: InstanceId)
    requires CallsInv(s) && Enabled(s, ResumeImport(k))
    ensures MovesForward(s.screen, Imported(s, k).screen, id)
  {
    var c := s.calls[k];
    assert CallOk(s.history, c);
    if c.reply.value.Statuses? {
      IngestedListMovesForward(s.screen, c.reply.value.all, id);
    } else if c.reply.value.One? {
      IngestedStatusMovesForward(s.screen, c.reply.value.id, c.reply.value.status, c.kind.CreateNew?, id);
    }
  }

  lemma IngestedListMovesForward(v: Screen, all: map<InstanceId, ComputerStatus>, id: InstanceId)
    ensures MovesForward(v, IngestedAll(v, all), id)
  {
    CellAfterReceiving(v, all, id);
  }

  lemma IngestedStatusMovesForward(v: Screen, at: InstanceId, status: ComputerStatus, trusted: bool, id: InstanceId)
    ensures MovesForward(v, Ingested(v, at, status.snapshot, status.connection, trusted), id)
  {}

  lemma SettlingMovesForward(s: State, k: CallId, id: InstanceId)
    requires CallsInv(s) && Enabled(s, ResumeIngested(k))
    ensures MovesForward(s.screen, Settled(s, k).screen, id)
  {
    assert CallOk(s.history, s.calls[k]);
    match s.calls[k].reply.value
    case Statuses(all) => assert MovesForward(s.screen, Reconciled(s.screen, all), id);
    case One(at, status) => assert MovesForward(s.screen, Answered(s.screen, s.calls[k].kind, at, status), id);
    case _ =>
  }

  /** No step shows an older runtime snapshot of a row that stays, whatever order replies and
      events come in. */
  lemma RowsMoveForward(s: State, step: Step, id: InstanceId)
    requires CallsInv(s) && Enabled(s, step)
    ensures MovesForward(s.screen, Apply(s, step).screen, id)
  {
    match step
    case ResumeImport(k) => ImportMovesForward(s, k, id);
    case ResumeIngested(k) => SettlingMovesForward(s, k, id);
    case _ =>
  }

  // ---------- What the rows show ----------

  /** The snapshot is one of the candidates, and none of them is newer. */
  predicate IsNewest(runtime: Snapshot, candidates: set<Snapshot>) {
    runtime in candidates && forall c :: c in candidates ==> !VersionLess(runtime.version, c.version)
  }

  /** The snapshots known of an id, with the one reported: shown, reported, and live. */
  function Candidates(v: Screen, id: InstanceId, reported: Snapshot): set<Snapshot> {
    {reported}
    + (if id in v.rows then {v.rows[id].runtime} else {})
    + (if id in v.cells && v.cells[id].live.Some? then {v.cells[id].live.value} else {})
  }

  predicate IsFenced(v: Screen, id: InstanceId) {
    id in v.cells && v.cells[id].deleted.Some?
  }

  /** Rows other than that of `id`, and all cells, are as before. */
  ghost predicate OnlyRow(v: Screen, w: Screen, id: InstanceId) {
    w.cells == v.cells && forall o :: o != id ==> Lookup(w.rows, o) == Lookup(v.rows, o)
  }

  /** A list is shown: exactly the reported ids without a deletion fence, each with the reported name
      and policy and the newest snapshot known of it. */
  ghost predicate ListShown(v: Screen, w: Screen, all: map<InstanceId, ComputerStatus>) {
    && w.cells == v.cells
    && (forall id :: id in w.rows <==> id in all && !IsFenced(v, id))
    && (forall id :: id in w.rows ==>
      && w.rows[id].name == all[id].name && w.rows[id].policy == all[id].policy
      && IsNewest(w.rows[id].runtime, Candidates(v, id, all[id].snapshot)))
  }

  /** One status is shown, unless its id is fenced. */
  ghost predicate RowShown(v: Screen, w: Screen, id: InstanceId, name: string, policy: string, reported: Snapshot) {
    && OnlyRow(v, w, id)
    && if IsFenced(v, id) then w == v
       else
         && id in w.rows && w.rows[id].name == name && w.rows[id].policy == policy
         && IsNewest(w.rows[id].runtime, Candidates(v, id, reported))
  }

  ghost predicate StatusShown(v: Screen, w: Screen, id: InstanceId, status: ComputerStatus) {
    RowShown(v, w, id, status.name, status.policy, status.snapshot)
  }

  /** The answer to a runtime action is shown: the snapshot only, and only of a row that is there. */
  ghost predicate ActionShown(v: Screen, w: Screen, id: InstanceId, reported: Snapshot) {
    && OnlyRow(v, w, id)
    && if IsFenced(v, id) || id !in v.rows then w == v
       else
         && id in w.rows && w.rows[id].name == v.rows[id].name && w.rows[id].policy == v.rows[id].policy
         && IsNewest(w.rows[id].runtime, Candidates(v, id, reported))
  }

  lemma NewestIsNewest(a: Snapshot, b: Snapshot)
    ensures IsNewest(Newest(a, b), {a, b})
  {}

  lemma MergedIsNewest(v: Screen, id: InstanceId, incoming: Row)
    ensures IsNewest(Merged(v, id, incoming).runtime, Candidates(v, id, incoming.runtime))
    ensures Merged(v, id, incoming).name == incoming.name && Merged(v, id, incoming).policy == incoming.policy
  {}

  lemma ReconciledShows(v: Screen, all: map<InstanceId, ComputerStatus>)
    ensures ListShown(v, Reconciled(v, all), all)
  {
    forall id | id in all { MergedIsNewest(v, id, RowOf(all[id])); }
  }

  lemma UpsertedShows(v: Screen, id: InstanceId, incoming: Row)
    ensures RowShown(v, Upserted(v, id, incoming), id, incoming.name, incoming.policy, incoming.runtime)
  {
    MergedIsNewest(v, id, incoming);
  }

  lemma ActionUpsertedShows(v: Screen, id: InstanceId, reported: Snapshot)
    ensures ActionShown(v, ActionUpserted(v, id, reported), id, reported)
  {
    if id in v.rows { MergedIsNewest(v, id, v.rows[id].(runtime := reported)); }
  }

  /** A current list that settles is shown; one overtaken changes nothing. */
  lemma SettledListIsShown(s: State, k: CallId)
    requires Enabled(s, ResumeIngested(k)) && s.calls[k].reply.value.Statuses?
    ensures var s' := Apply(s, ResumeIngested(k));
      if IsCurrent(s, s.calls[k]) then ListShown(s.screen, s'.screen, s.calls[k].reply.value.all)
      else s'.screen == s.screen
  {
    ReconciledShows(s.screen, s.calls[k].reply.value.all);
  }

  /** A mutation's answer that settles is shown, unless a newer profile mutation of its Computer has
      begun since. */
  lemma SettledMutationIsShown(s: State, k: CallId)
    requires Enabled(s, ResumeIngested(k)) && CallOk(s.history, s.calls[k]) && s.calls[k].reply.value.One?
    ensures var c, w := s.calls[k], Apply(s, ResumeIngested(k)).screen;
      var id, status := c.reply.value.id, c.reply.value.status;
      match c.kind
      case CreateNew => StatusShown(s.screen, w, id, status)
      case ChangeProfile(i, version) =>
        if i in s.profileVersions && s.profileVersions[i] == version then StatusShown(s.screen, w, id, status)
        else w == s.screen
      case _ => ActionShown(s.screen, w, id, status.snapshot)
  {
    var c := s.calls[k];
    UpsertedShows(s.screen, c.reply.value.id, RowOf(c.reply.value.status));
    ActionUpsertedShows(s.screen, c.reply.value.id, c.reply.value.status.snapshot);
  }

  /** Metadata changes the policy only, and only for the newest request of the newest mutation. */
  lemma MetadataIsShown(s: State, k: CallId, id: InstanceId)
    requires Enabled(s, ResumeReply(k)) && s.calls[k].kind.Metadata? && s.calls[k].reply.value.Statuses?
    requires s.calls[k].kind.id == id
    ensures var c, w := s.calls[k], Apply(s, ResumeReply(k)).screen;
      var all := c.reply.value.all;
      && OnlyRow(s.screen, w, id)
      && if Lookup(s.profileVersions, id) == Some(c.kind.version)
           && Lookup(s.metadataRequests, id) == Some(c.kind.request) && id in all && id in s.screen.rows
         then id in w.rows && w.rows[id] == s.screen.rows[id].(policy := all[id].policy)
         else w == s.screen
  {}

  /** A deletion takes its row away and no other. */
  lemma DeletionIsShown(s: State, k: CallId)
    requires Enabled(s, ResumeImport(k)) && s.calls[k].kind.Delete?
    ensures var id, w := s.calls[k].kind.id, Apply(s, ResumeImport(k)).screen;
      && id !in w.rows && (forall o :: o != id ==> Lookup(w.rows, o) == Lookup(s.screen.rows, o))
      && (forall o :: o != id ==> CellAt(w.cells, o) == CellAt(s.screen.cells, o))
  {}

  /** One id as it is taken in: its observation goes through the store, and its row, if there is one, shows
      what has become live. */
  ghost predicate TakenIn(v: Screen, w: Screen, id: InstanceId, snapshot: Snapshot, connection: ConnectionInput,
                          rediscovery: bool)
  {
    && CellAt(w.cells, id) == Received(CellAt(v.cells, id), snapshot, Some(connection), rediscovery)
    && (id in w.rows <==> id in v.rows)
    && (id in v.rows ==>
      && w.rows[id].name == v.rows[id].name && w.rows[id].policy == v.rows[id].policy
      && var live := CellAt(w.cells, id).live;
        if live.Some? then IsNewest(w.rows[id].runtime, {v.rows[id].runtime, live.value})
        else w.rows[id].runtime == v.rows[id].runtime)
  }

  ghost predicate LeftAlone(v: Screen, w: Screen, id: InstanceId) {
    CellAt(w.cells, id) == CellAt(v.cells, id) && Lookup(w.rows, id) == Lookup(v.rows, id)
  }

  lemma IngestedIsTakenIn(v: Screen, id: InstanceId, snapshot: Snapshot, connection: ConnectionInput,
                          rediscovery: bool)
    ensures var w := Ingested(v, id, snapshot, connection, rediscovery);
      TakenIn(v, w, id, snapshot, connection, rediscovery) && forall o :: o != id ==> LeftAlone(v, w, o)
  {}

  /** A runtime event is taken in as it comes. */
  lemma EventIsTakenIn(s: State, id: InstanceId, snapshot: Snapshot, connection: ConnectionInput)
    requires Enabled(s, RuntimeEvent(id, snapshot, connection))
    ensures var w := Apply(s, RuntimeEvent(id, snapshot, connection)).screen;
      TakenIn(s.screen, w, id, snapshot, connection, false) && forall o :: o != id ==> LeftAlone(s.screen, w, o)
  {
    IngestedIsTakenIn(s.screen, id, snapshot, connection, false);
  }

  /** A mutation's answer is taken in before it settles, and only a new Computer's may open a fence. */
  lemma AnswerIsTakenIn(s: State, k: CallId)
    requires Enabled(s, ResumeImport(k)) && !s.calls[k].kind.Delete? && s.calls[k].reply.value.One?
    ensures var s', c := Apply(s, ResumeImport(k)), s.calls[k];
      var id, status := c.reply.value.id, c.reply.value.status;
      && TakenIn(s.screen, s'.screen, id, status.snapshot, status.connection, c.kind.CreateNew?)
      && (forall o :: o != id ==> LeftAlone(s.screen, s'.screen, o))
      && k in s'.calls && s'.calls[k] == c.(stage := AwaitIngested)
  {
    var c := s.calls[k];
    var status := c.reply.value.status;
    IngestedIsTakenIn(s.screen, c.reply.value.id, status.snapshot, status.connection, c.kind.CreateNew?);
  }

  lemma AllIngestedTakenIn(v: Screen, all: map<InstanceId, ComputerStatus>, id: InstanceId)
    ensures var w := IngestedAll(v, all);
      if id in all then TakenIn(v, w, id, all[id].snapshot, all[id].connection, true) else LeftAlone(v, w, id)
  {
    CellAfterReceiving(v, all, id);
  }

  /** A current list goes on: the rows it no longer reports are first forgotten, and then every status is
      taken in, free to open a fence. An overtaken list changes nothing. */
  lemma ListIsTakenIn(s: State, k: CallId, id: InstanceId)
    requires Enabled(s, ResumeImport(k)) && !s.calls[k].kind.Delete? && s.calls[k].reply.value.Statuses?
    ensures var s', c := Apply(s, ResumeImport(k)), s.calls[k];
      var all := c.reply.value.all;
      if !IsCurrent(s, c) then s'.screen == s.screen && k !in s'.calls
      else if c.stage.AwaitMissingImport? then
        && s'.screen.rows == s.screen.rows && k in s'.calls && s'.calls[k] == c.(stage := AwaitImport)
        && CellAt(s'.screen.cells, id) ==
          var cell := CellAt(s.screen.cells, id); if id in c.stage.missing then Forgotten(cell) else cell
      else
        && k in s'.calls && s'.calls[k] == c.(stage := AwaitIngested)
        && if id in all then TakenIn(s.screen, s'.screen, id, all[id].snapshot, all[id].connection, true)
           else LeftAlone(s.screen, s'.screen, id)
  {
    AllIngestedTakenIn(s.screen, s.calls[k].reply.value.all, id);
  }

  /** A list that is current when it is answered goes on to be taken in, after what it does not report was
      forgotten. */
  lemma ListIsAnswered(s: State, k: CallId)
    requires Enabled(s, ResumeReply(k)) && s.calls[k].kind.ListAll? && s.calls[k].reply.value.Statuses?
    ensures var s', c := Apply(s, ResumeReply(k)), s.calls[k];
      && s'.screen == s.screen
      && if !IsCurrent(s, c) then k !in s'.calls
         else
           && k in s'.calls
           && if forall id :: id in s.screen.rows ==> id in c.reply.value.all
              then s'.calls[k].stage == AwaitImport
              else
                && s'.calls[k].stage.AwaitMissingImport?
                && forall id :: id in s'.calls[k].stage.missing <==> id in s.screen.rows && id !in c.reply.value.all
  {
    var c := s.calls[k];
    var missing := s.screen.rows.Keys - c.reply.value.all.Keys;
    forall id | id in s.screen.rows && id !in c.reply.value.all ensures missing != {} { assert id in missing; }
  }
}
