/** The versioned observation store: authoritative snapshots with deletion and retirement fences
    (src/stores/runtimeSnapshot.ts), connection authority with an order of its own
    (src/stores/connectionAuthority.ts), and the projections fed from both
    (src/stores/runtimeStore.ts, src/stores/connectionStore.ts). */
module RuntimeObservations {
  import opened Outcomes

  type InstanceId = string

  // ---------- Observations ----------

  datatype Version = Version(incarnation: nat, generation: nat, revision: nat)

  datatype Reason =
    | AlreadyRunning | AlreadyConnected | NotRunning | NotConnected | TransitionInProgress
    | Degraded | ConnectionUnavailable

  datatype Capability = Capability(enabled: bool, reason: Option<Reason>)

  datatype Snapshot = Snapshot(version: Version, connect: Capability, disconnect: Capability, body: string)

  datatype Status = Disconnected | Connecting | Connected | Disconnecting

  datatype ConnectionState = ConnectionState(
    status: Status, present: bool, context: Option<string>, revision: nat, operation: Option<string>,
    operationTarget: Option<string>, lastError: Option<string>, connect: Capability, disconnect: Capability)

  /** A connection as observed: complete, or in the form used before operations were reported. */
  datatype ConnectionInput =
    | Current(state: ConnectionState)
    | Legacy(present: bool, context: Option<string>, revision: nat)

  datatype Authority = Authority(state: ConnectionState, incarnation: nat, generation: nat, snapshotRevision: nat)

  /** What the connection store shows of an instance. */
  datatype StatusInfo = StatusInfo(
    status: Status, connected: bool, operation: Option<string>, operationTarget: Option<string>,
    lastError: Option<string>, actions: Option<(Capability, Capability)>, context: Option<string>)

  // ---------- The two orders ----------

  predicate VersionLess(a: Version, b: Version) {
    || a.incarnation < b.incarnation
    || (a.incarnation == b.incarnation && a.generation < b.generation)
    || (a.incarnation == b.incarnation && a.generation == b.generation && a.revision < b.revision)
  }

  /** `shouldAcceptRuntimeSnapshot`, branch by branch. */
  function ShouldAccept(current: Option<Snapshot>, incoming: Snapshot): (r: bool)
    ensures r <==> current.None? || VersionLess(current.value.version, incoming.version)
  {
    if current.None? then true
    else
      var c, i := current.value.version, incoming.version;
      if i.incarnation != c.incarnation then i.incarnation > c.incarnation
      else if i.generation != c.generation then i.generation > c.generation
      else if i.revision != c.revision then i.revision > c.revision
      else false
  }

  /** Connection authority orders first by incarnation, then by its own revision. */
  datatype Rank = Rank(incarnation: nat, connection: nat, generation: nat, snapshot: nat)

  predicate RankLess(a: Rank, b: Rank) {
    || a.incarnation < b.incarnation
    || (a.incarnation == b.incarnation && a.connection < b.connection)
    || (a.incarnation == b.incarnation && a.connection == b.connection && a.generation < b.generation)
    || (a.incarnation == b.incarnation && a.connection == b.connection && a.generation == b.generation
        && a.snapshot < b.snapshot)
  }

  function RankOf(a: Authority): Rank {
    Rank(a.incarnation, a.state.revision, a.generation, a.snapshotRevision)
  }

  function LegacyCapability(c: Capability, fallback: Reason): Capability {
    if c.enabled then Capability(true, None)
    else Capability(false, Some(
      if c.reason == Some(NotRunning) then NotRunning
      else if c.reason == Some(TransitionInProgress) then TransitionInProgress
      else if c.reason == Some(AlreadyRunning) then AlreadyConnected
      else fallback))
  }

  function LegacyState(present: bool, context: Option<string>, revision: nat, runtime: Snapshot): ConnectionState {
    ConnectionState(
      if present then Connected else Disconnected, present, if present then context else None, revision,
      None, None, None,
      if present then Capability(false, Some(AlreadyConnected))
      else LegacyCapability(runtime.connect, ConnectionUnavailable),
      if present then Capability(true, None)
      else LegacyCapability(runtime.disconnect, NotConnected))
  }

  function StateOf(c: ConnectionInput, runtime: Snapshot): ConnectionState {
    match c
    case Current(state) => state
    case Legacy(present, context, revision) => LegacyState(present, context, revision, runtime)
  }

  /** The authority an observation proposes: a context only when present, an operation target only
      with an operation. */
  function Proposed(c: ConnectionInput, runtime: Snapshot): Authority {
    var s := StateOf(c, runtime);
    Authority(s.(context := if s.present then s.context else None,
                 operationTarget := if s.operation.Some? then s.operationTarget else None),
              runtime.version.incarnation, runtime.version.generation, runtime.version.revision)
  }

  /** The rejection test of `setClientConnectionAuthority`. */
  function KeepsCurrent(current: Option<Authority>, revision: nat, runtime: Snapshot): (r: bool)
    ensures r <==> current.Some? && !RankLess(RankOf(current.value),
      Rank(runtime.version.incarnation, revision, runtime.version.generation, runtime.version.revision))
  {
    current.Some? && (
      || runtime.version.incarnation < current.value.incarnation
      || (runtime.version.incarnation == current.value.incarnation && (
          || revision < current.value.state.revision
          || (revision == current.value.state.revision && (
              || runtime.version.generation < current.value.generation
              || (runtime.version.generation == current.value.generation
                  && runtime.version.revision <= current.value.snapshotRevision))))))
  }

  // ---------- One instance ----------

  /** Everything the stores hold about one instance. */
  datatype Cell = Cell(
    live: Option<Snapshot>, deleted: Option<nat>, retired: Option<nat>, authority: Option<Authority>,
    shown: Option<Snapshot>, status: Option<StatusInfo>)

  const EMPTY: Cell := Cell(None, None, None, None, None, None)

  /** `canProjectRuntimeIncarnation`. */
  predicate CanProject(c: Cell, incarnation: nat) {
    && c.deleted.None?
    && (c.retired.Some? ==> c.retired.value < incarnation)
    && (c.live.Some? ==> c.live.value.version.incarnation <= incarnation)
  }

  function AuthorityFor(authority: Option<Authority>, incarnation: nat): Option<ConnectionState> {
    if authority.Some? && authority.value.incarnation == incarnation then Some(authority.value.state) else None
  }

  /** The connection status to show for a snapshot: its authority, if of the same incarnation. */
  function Projected(authority: Option<Authority>, runtime: Snapshot): StatusInfo {
    match AuthorityFor(authority, runtime.version.incarnation)
    case None => StatusInfo(Disconnected, false, None, None, None, None, None)
    case Some(a) =>
      StatusInfo(a.status, a.status == Connected, a.operation, a.operationTarget, a.lastError,
                 Some((a.connect, a.disconnect)), a.context)
  }

  /** `acceptAuthoritativeRuntimeSnapshot`. A deletion fence that lets a rediscovery through is
      removed before the remaining tests. */
  function Admit(c: Cell, incoming: Snapshot, rediscovery: bool): (Cell, bool) {
    if c.deleted.Some? && (!rediscovery || incoming.version.incarnation <= c.deleted.value) then (c, false)
    else
      var unfenced := c.(deleted := None);
      if c.retired.Some? && incoming.version.incarnation <= c.retired.value then (unfenced, false)
      else if !ShouldAccept(c.live, incoming) then (unfenced, false)
      else (unfenced.(retired := None, live := Some(incoming)), true)
  }

  function WithAuthority(c: Cell, connection: ConnectionInput, runtime: Snapshot): Cell {
    if KeepsCurrent(c.authority, StateOf(connection, runtime).revision, runtime) then c
    else c.(authority := Some(Proposed(connection, runtime)))
  }

  /** `applyConnectionAuthority`. */
  function Paired(c: Cell, incoming: Snapshot, connection: Option<ConnectionInput>): Cell {
    if connection.Some? && CanProject(c, incoming.version.incarnation)
    then WithAuthority(c, connection.value, incoming) else c
  }

  /** `receiveSnapshot` and, with a connection and no rediscovery, `receiveEvent`. */
  function Received(c: Cell, incoming: Snapshot, connection: Option<ConnectionInput>, rediscovery: bool): Cell {
    var (admitted, accepted) := Admit(c, incoming, rediscovery);
    var paired := Paired(admitted, incoming, connection);
    if accepted then paired.(shown := Some(incoming), status := Some(Projected(paired.authority, incoming)))
    else if c.live.Some? then paired.(status := Some(Projected(paired.authority, c.live.value)))
    else paired
  }

  function Evicted(c: Cell, incarnation: nat): Cell {
    var live := if c.live.Some? then c.live.value.version.incarnation else 0;
    EMPTY.(deleted := Some(Larger(GetOr(c.deleted, 0), Larger(live, Larger(GetOr(c.retired, 0), incarnation)))))
  }

  function Forgotten(c: Cell): Cell {
    EMPTY.(deleted := c.deleted,
           retired :=
             if c.live.Some? then Some(Larger(GetOr(c.retired, 0), c.live.value.version.incarnation)) else c.retired)
  }

  datatype Op =
    | Receive(snapshot: Snapshot, connection: Option<ConnectionInput>, rediscovery: bool)
    | Evict(incarnation: nat)
    | Forget
    | ReceiveDashboard(snapshot: Snapshot, connectionState: ConnectionInput)

  /** The dashboard sets the authority directly before it hands the snapshot on. */
  function After(c: Cell, op: Op): Cell {
    match op
    case Receive(snapshot, connection, rediscovery) => Received(c, snapshot, connection, rediscovery)
    case Evict(incarnation) => Evicted(c, incarnation)
    case Forget => Forgotten(c)
    case ReceiveDashboard(snapshot, connection) =>
      Received(WithAuthority(c, connection, snapshot), snapshot, Some(connection), false)
  }

  /** The cells an instance goes through, from nothing known. */
  ghost predicate IsHistory(cells: seq<Cell>, ops: seq<Op>) {
    && |cells| == |ops| + 1 && cells[0] == EMPTY
    && forall i {:trigger ops[i]} :: 0 <= i < |ops| ==> cells[i + 1] == After(cells[i], ops[i])
  }

  /** The snapshot an operation makes authoritative, if it does. */
  function AcceptedBy(c: Cell, op: Op): Option<Version> {
    if (op.Receive? && Admit(c, op.snapshot, op.rediscovery).1)
      || (op.ReceiveDashboard? && Admit(c, op.snapshot, false).1)
    then Some(op.snapshot.version) else None
  }

  // ---------- Fences ----------

  /** An instance is live, retired, deleted, or unknown, and only one of these. */
  predicate Fenced(c: Cell) {
    && (c.deleted.Some? ==> c.live.None? && c.retired.None?)
    && (c.retired.Some? ==> c.live.None?)
  }

  /** The shown snapshot is the authoritative one, and the status its projection. */
  predicate InAgreement(c: Cell) {
    && c.shown == c.live
    && c.status == if c.live.Some? then Some(Projected(c.authority, c.live.value)) else None
  }

  /** What is shown of the connection, said of the fields: the authority of the live incarnation, or a
      plain disconnected status when there is none of it, or nothing when nothing is live. */
  predicate StatusShows(c: Cell) {
    match (c.live, c.status)
    case (None, shown) => shown == None
    case (Some(_), None) => false
    case (Some(live), Some(shown)) =>
      if c.authority.Some? && c.authority.value.incarnation == live.version.incarnation then
        var a := c.authority.value.state;
        && shown.status == a.status && (shown.connected <==> a.status == Connected)
        && shown.operation == a.operation && shown.operationTarget == a.operationTarget
        && shown.lastError == a.lastError && shown.context == a.context
        && shown.actions.Some? && shown.actions.value.0 == a.connect && shown.actions.value.1 == a.disconnect
      else
        && shown.status == Disconnected && !shown.connected && shown.operation == None && shown.operationTarget == None
        && shown.lastError == None && shown.context == None && shown.actions == None
  }

  lemma AgreementShows(c: Cell)
    requires InAgreement(c)
    ensures StatusShows(c) && c.shown == c.live
  {}

  lemma ReceptionShows(c: Cell, incoming: Snapshot, connection: Option<ConnectionInput>, rediscovery: bool)
    ensures var end := Received(c, incoming, connection, rediscovery);
      && (end.live.Some? ==> StatusShows(end))
      && (InAgreement(c) ==> InAgreement(end) && StatusShows(end))
  {}

  /** When a snapshot is accepted, and what acceptance and rejection leave. */
  lemma AdmissionExactly(c: Cell, incoming: Snapshot, rediscovery: bool)
    requires Fenced(c)
    ensures var (end, accepted), incarnation := Admit(c, incoming, rediscovery), incoming.version.incarnation;
      && (accepted <==>
        && (c.deleted.Some? ==> rediscovery && incarnation > c.deleted.value)
        && (c.retired.Some? ==> incarnation > c.retired.value)
        && (c.live.Some? ==> VersionLess(c.live.value.version, incoming.version)))
      && (accepted ==> end.live == Some(incoming) && end.deleted == None && end.retired == None)
      && (!accepted ==> end == c)
      && end.authority == c.authority && end.shown == c.shown && end.status == c.status
  {}

  /** The deletion fence is the greatest incarnation known of the instance, and nothing else stays. */
  lemma EvictionExactly(c: Cell, incarnation: nat)
    ensures var end := Evicted(c, incarnation);
      && end.deleted.Some? && end.deleted.value >= incarnation
      && (c.live.Some? ==> end.deleted.value >= c.live.value.version.incarnation)
      && (c.retired.Some? ==> end.deleted.value >= c.retired.value)
      && (c.deleted.Some? ==> end.deleted.value >= c.deleted.value)
      && (end.deleted.value == incarnation
        || (c.live.Some? && end.deleted.value == c.live.value.version.incarnation)
        || (c.retired.Some? && end.deleted.value == c.retired.value)
        || (c.deleted.Some? && end.deleted.value == c.deleted.value))
      && end.live == None && end.retired == None && end.authority == None && end.shown == None && end.status == None
  {}

  /** Forgetting retires the live incarnation, or keeps the fences as they are. */
  lemma ForgettingExactly(c: Cell)
    requires Fenced(c)
    ensures var end := Forgotten(c);
      && end.deleted == c.deleted
      && end.retired == (if c.live.Some? then Some(c.live.value.version.incarnation) else c.retired)
      && end.live == None && end.authority == None && end.shown == None && end.status == None
  {}

  /** The disabled action of a runtime, as the connection shows it. */
  predicate CapabilityCarries(shown: Capability, runtime: Capability, fallback: Reason) {
    && (shown.enabled <==> runtime.enabled)
    && (runtime.enabled ==> shown.reason == None)
    && (!runtime.enabled ==>
      && (runtime.reason == Some(NotRunning) ==> shown.reason == Some(NotRunning))
      && (runtime.reason == Some(TransitionInProgress) ==> shown.reason == Some(TransitionInProgress))
      && (runtime.reason == Some(AlreadyRunning) ==> shown.reason == Some(AlreadyConnected))
      && (!(runtime.reason in [Some(NotRunning), Some(TransitionInProgress), Some(AlreadyRunning)]) ==>
        shown.reason == Some(fallback)))
  }

  /** The authority is what was observed, field by field: with the runtime's version, a context only
      when present, and an operation target only during an operation. */
  predicate Describes(a: Authority, c: ConnectionInput, runtime: Snapshot) {
    && a.incarnation == runtime.version.incarnation && a.generation == runtime.version.generation
    && a.snapshotRevision == runtime.version.revision
    && match c
       case Current(s) =>
         && a.state.status == s.status && a.state.present == s.present && a.state.revision == s.revision
         && a.state.operation == s.operation && a.state.lastError == s.lastError
         && a.state.connect == s.connect && a.state.disconnect == s.disconnect
         && a.state.context == (if s.present then s.context else None)
         && a.state.operationTarget == (if s.operation.Some? then s.operationTarget else None)
       case Legacy(present, context, revision) =>
         && a.state.status == (if present then Connected else Disconnected)
         && a.state.present == present && a.state.revision == revision
         && a.state.context == (if present then context else None)
         && a.state.operation == None && a.state.operationTarget == None && a.state.lastError == None
         && (present ==>
           && a.state.connect == Capability(false, Some(AlreadyConnected))
           && a.state.disconnect == Capability(true, None))
         && (!present ==>
           && CapabilityCarries(a.state.connect, runtime.connect, ConnectionUnavailable)
           && CapabilityCarries(a.state.disconnect, runtime.disconnect, NotConnected))
  }

  lemma ProposalDescribes(c: ConnectionInput, runtime: Snapshot)
    ensures Describes(Proposed(c, runtime), c, runtime)
  {}

  lemma StepKeepsFencesAndAgreement(c: Cell, op: Op)
    requires Fenced(c) && InAgreement(c)
    ensures Fenced(After(c, op)) && InAgreement(After(c, op))
  {}

  /** After every operation of a run: disjoint fences, and projections equal to the authority. */
  lemma {:induction false} RunKeepsFencesAndAgreement(cells: seq<Cell>, ops: seq<Op>, n: nat)
    requires IsHistory(cells, ops) && n <= |ops|
    ensures Fenced(cells[n]) && InAgreement(cells[n]) && StatusShows(cells[n])
  {
    if n > 0 {
      RunKeepsFencesAndAgreement(cells, ops, n - 1);
      StepKeepsFencesAndAgreement(cells[n - 1], ops[n - 1]);
    }
  }

  /** A rejected snapshot leaves the snapshot and both fences alone. */
  lemma RejectionChangesNothing(c: Cell, incoming: Snapshot, rediscovery: bool)
    requires Fenced(c) && !Admit(c, incoming, rediscovery).1
    ensures Admit(c, incoming, rediscovery).0 == c
  {}

  /** That needs the fences to be disjoint: with both in place, a rejected rediscovery would
      open the deletion fence. */
  lemma RejectionOpensOverlappingFence(incoming: Snapshot)
    requires incoming.version.incarnation == 3
    ensures var c := EMPTY.(deleted := Some(2), retired := Some(5));
      !Admit(c, incoming, true).1 && Admit(c, incoming, true).0.deleted == None
  {}

  /** A deletion fence is lifted only by accepting a rediscovered, strictly newer incarnation. */
  lemma FenceLiftedOnlyByAcceptance(c: Cell, op: Op)
    requires Fenced(c) && c.deleted.Some? && After(c, op).deleted.None?
    ensures op.Receive? && op.rediscovery && op.snapshot.version.incarnation > c.deleted.value
    ensures After(c, op).live == Some(op.snapshot)
  {}

  // ---------- Accepted versions ----------

  /** The version accepted last is still held by something: the snapshot, or a fence above it. */
  predicate Remembers(c: Cell, last: Version) {
    || (c.live.Some? && c.live.value.version == last)
    || (c.retired.Some? && last.incarnation <= c.retired.value)
    || (c.deleted.Some? && last.incarnation <= c.deleted.value)
  }

  lemma StepKeepsMemory(c: Cell, op: Op, last: Version)
    requires Fenced(c) && Remembers(c, last)
    ensures AcceptedBy(c, op).Some? ==> VersionLess(last, AcceptedBy(c, op).value)
    ensures Remembers(After(c, op), if AcceptedBy(c, op).Some? then AcceptedBy(c, op).value else last)
  {}

  /** Between two acceptances, through any forgetting, eviction and rejected news in between, the
      version of the instance strictly grows. */
  lemma AcceptedVersionsIncrease(cells: seq<Cell>, ops: seq<Op>, i: nat, j: nat, v: Version, w: Version)
    requires IsHistory(cells, ops) && i < j < |ops|
    requires AcceptedBy(cells[i], ops[i]) == Some(v) && AcceptedBy(cells[j], ops[j]) == Some(w)
    ensures VersionLess(v, w)
  {
    AcceptedIsRemembered(cells[i], ops[i]);
    var last := RememberedLater(cells, ops, i + 1, j, v);
    RunKeepsFencesAndAgreement(cells, ops, j);
    StepKeepsMemory(cells[j], ops[j], last);
    VersionsChain(v, last, w);
  }

  lemma AcceptedIsRemembered(c: Cell, op: Op)
    requires AcceptedBy(c, op).Some?
    ensures Remembers(After(c, op), AcceptedBy(c, op).value)
  {}

  lemma {:induction false} RememberedLater(cells: seq<Cell>, ops: seq<Op>, i: nat, j: nat, first: Version)
    returns (last: Version)
    requires IsHistory(cells, ops) && i <= j <= |ops| && Remembers(cells[i], first)
    ensures Remembers(cells[j], last)
    ensures last == first || VersionLess(first, last)
  {
    if j == i {
      last := first;
    } else {
      var earlier := RememberedLater(cells, ops, i, j - 1, first);
      last := NextAcceptedInRun(cells, ops, j - 1, earlier);
      VersionsChain(first, earlier, last);
    }
  }

  lemma VersionsChain(a: Version, b: Version, c: Version)
    requires (b == a || VersionLess(a, b)) && (c == b || VersionLess(b, c))
    ensures c == a || VersionLess(a, c)
    ensures VersionLess(b, c) ==> VersionLess(a, c)
  {}

  lemma NextAcceptedInRun(cells: seq<Cell>, ops: seq<Op>, j: nat, last: Version) returns (next: Version)
    requires IsHistory(cells, ops) && j < |ops| && Remembers(cells[j], last)
    ensures Remembers(cells[j + 1], next) && (next == last || VersionLess(last, next))
  {
    RunKeepsFencesAndAgreement(cells, ops, j);
    next := NextAccepted(cells[j], ops[j], last);
  }

  /** The version remembered after one more operation is the same or a greater one. */
  lemma NextAccepted(c: Cell, op: Op, last: Version) returns (next: Version)
    requires Fenced(c) && Remembers(c, last)
    ensures Remembers(After(c, op), next) && (next == last || VersionLess(last, next))
  {
    StepKeepsMemory(c, op, last);
    next := if AcceptedBy(c, op).Some? then AcceptedBy(c, op).value else last;
  }

  // ---------- Convergence ----------

  /** Where an observation comes from: an event, a list trusted to rediscover, or the dashboard. */
  datatype Source = FromEvent | FromTrustedList | FromDashboard

  /** A runtime observation: a snapshot with the connection seen beside it. */
  datatype Observation = Observation(snapshot: Snapshot, connection: ConnectionInput, source: Source)

  function Proposal(o: Observation): Authority {
    Proposed(o.connection, o.snapshot)
  }

  function OpOf(o: Observation): Op {
    if o.source.FromDashboard? then ReceiveDashboard(o.snapshot, o.connection)
    else Receive(o.snapshot, Some(o.connection), o.source.FromTrustedList?)
  }

  function Observed(c: Cell, o: Observation): Cell {
    After(c, OpOf(o))
  }

  function ObservedAll(c: Cell, os: seq<Observation>): Cell {
    if os == [] then c else Observed(ObservedAll(c, os[..|os| - 1]), os[|os| - 1])
  }

  /** The observation is past the fences of `c` and not of an older incarnation. */
  predicate Eligible(c: Cell, o: Observation) {
    var incarnation := o.snapshot.version.incarnation;
    && (c.deleted.Some? ==> o.source.FromTrustedList? && c.deleted.value < incarnation)
    && (c.retired.Some? ==> c.retired.value < incarnation)
    && (c.live.Some? ==> c.live.value.version.incarnation <= incarnation)
  }

  /** Its connection counts: the dashboard sets the authority whatever the fences say. */
  predicate Connects(c: Cell, o: Observation) {
    o.source.FromDashboard? || Eligible(c, o)
  }

  /** Behind a deletion fence, either every observation is trusted to rediscover or none is. */
  ghost predicate Uniform(c: Cell, os: set<Observation>) {
    c.deleted.Some? ==> forall o, p :: o in os && p in os ==> (o.source.FromTrustedList? <==> p.source.FromTrustedList?)
  }

  /** Equal keys mean equal content, among the observations and with what `c` already holds. */
  ghost predicate Consistent(c: Cell, os: set<Observation>) {
    && (forall o, p :: o in os && p in os ==>
      && (o.snapshot.version == p.snapshot.version ==> o.snapshot == p.snapshot)
      && (RankOf(Proposal(o)) == RankOf(Proposal(p)) ==> Proposal(o) == Proposal(p)))
    && (forall o :: o in os ==>
      && (c.live.Some? && c.live.value.version == o.snapshot.version ==> c.live.value == o.snapshot)
      && (c.authority.Some? && RankOf(c.authority.value) == RankOf(Proposal(o)) ==> c.authority.value == Proposal(o)))
  }

  ghost predicate News(start: Cell, os: set<Observation>) {
    exists o :: o in os && Eligible(start, o)
  }

  /** The live snapshot is the greatest of the eligible ones and the one held before. */
  ghost predicate GreatestLive(start: Cell, os: set<Observation>, end: Cell) {
    && (end.live == start.live || exists o :: o in os && Eligible(start, o) && end.live == Some(o.snapshot))
    && (forall o :: o in os && Eligible(start, o) ==>
      end.live.Some? && !VersionLess(end.live.value.version, o.snapshot.version))
    && (start.live.Some? ==> end.live.Some? && !VersionLess(end.live.value.version, start.live.value.version))
  }

  /** The authority is the greatest of the connections that count and the one held before. */
  ghost predicate GreatestAuthority(start: Cell, os: set<Observation>, end: Cell) {
    && (end.authority == start.authority
      || exists o :: o in os && Connects(start, o) && end.authority == Some(Proposal(o)))
    && (forall o :: o in os && Connects(start, o) ==> Covers(end, Proposal(o)))
    && (start.authority.Some? ==> Covers(end, start.authority.value))
  }

  ghost predicate FencesOpened(start: Cell, os: set<Observation>, end: Cell) {
    && end.deleted == (if News(start, os) then None else start.deleted)
    && end.retired == (if News(start, os) then None else start.retired)
  }

  /** `end` is what `start` becomes by knowing the observations `os`, in whatever order. */
  ghost predicate Explains(start: Cell, os: set<Observation>, end: Cell) {
    && GreatestLive(start, os, end)
    && GreatestAuthority(start, os, end)
    && FencesOpened(start, os, end)
    && Fenced(end) && InAgreement(end)
  }

  ghost function Elements(os: seq<Observation>): set<Observation> {
    set o | o in os
  }

  /** Snapshot and fences after an observation are those its admission leaves. */
  ghost predicate Admitted(c: Cell, o: Observation, end: Cell) {
    var admitted := Admit(c, o.snapshot, o.source.FromTrustedList?).0;
    end.live == admitted.live && end.deleted == admitted.deleted && end.retired == admitted.retired
  }

  lemma ObservationAdmits(c: Cell, o: Observation)
    ensures Admitted(c, o, Observed(c, o))
  {}

  lemma AdmissionKeepsFences(start: Cell, known: set<Observation>, mid: Cell, o: Observation, end: Cell)
    requires Fenced(start) && Fenced(mid) && Uniform(start, known + {o})
    requires FencesOpened(start, known, mid) && GreatestLive(start, known, mid) && Admitted(mid, o, end)
    ensures FencesOpened(start, known + {o}, end)
  {
    if Eligible(start, o) { assert o in known + {o}; }
    if News(start, known) {
      var p :| p in known && Eligible(start, p);
      assert p in known + {o};
    }
  }

  lemma AdmissionKeepsLive(start: Cell, known: set<Observation>, mid: Cell, o: Observation, end: Cell)
    requires Fenced(start) && Fenced(mid) && Uniform(start, known + {o})
    requires FencesOpened(start, known, mid) && GreatestLive(start, known, mid) && Admitted(mid, o, end)
    ensures GreatestLive(start, known + {o}, end)
  {
    assert o in known + {o};
    if end.live == mid.live && mid.live != start.live {
      var p :| p in known && Eligible(start, p) && mid.live == Some(p.snapshot);
      assert p in known + {o};
    }
  }

  /** The authority is of no older incarnation than the snapshot once there was news. */
  lemma AuthorityCovers(start: Cell, known: set<Observation>, mid: Cell, o: Observation, p: Observation)
    requires Fenced(start) && Explains(start, known, mid) && Uniform(start, known + {o})
    requires p in known + {o} && Connects(start, p)
    ensures Covers(Observed(mid, o), Proposal(p))
  {
    if p in known {
      AuthorityNeverFalls(mid, o);
    } else if o.source.FromDashboard? {
      DashboardCovers(mid, o);
    } else {
      if mid.live != start.live {
        var q :| q in known && Eligible(start, q) && mid.live == Some(q.snapshot);
        assert Connects(start, q) && Covers(mid, Proposal(q));
      }
      EligibleCovers(mid, o);
    }
  }

  /** The authority held is no lower in its order. */
  predicate Covers(c: Cell, a: Authority) {
    c.authority.Some? && !RankLess(RankOf(c.authority.value), RankOf(a))
  }

  lemma DashboardCovers(c: Cell, o: Observation)
    requires o.source.FromDashboard?
    ensures Covers(Observed(c, o), Proposal(o))
  {}

  /** Past the fences, an observation is either of the live incarnation or a newer one, or the
      authority is newer. */
  lemma EligibleCovers(c: Cell, o: Observation)
    requires !o.source.FromDashboard? && Fenced(c)
    requires c.deleted.Some? ==> o.source.FromTrustedList? && c.deleted.value < o.snapshot.version.incarnation
    requires c.retired.Some? ==> c.retired.value < o.snapshot.version.incarnation
    requires c.live.Some? && o.snapshot.version.incarnation < c.live.value.version.incarnation ==>
      c.authority.Some? && c.live.value.version.incarnation <= c.authority.value.incarnation
    ensures Covers(Observed(c, o), Proposal(o))
  {}

  lemma AuthorityNeverFalls(c: Cell, o: Observation)
    ensures c.authority.Some? ==> Covers(Observed(c, o), c.authority.value)
  {
    if c.authority.Some? {
      if o.source.FromDashboard? {
        var direct := WithAuthority(c, o.connection, o.snapshot);
        assert Covers(direct, c.authority.value);
        ReceptionNeverFalls(direct, o.snapshot, o.connection, false);
      } else {
        ReceptionNeverFalls(c, o.snapshot, o.connection, o.source.FromTrustedList?);
      }
    }
  }

  lemma ReceptionNeverFalls(c: Cell, incoming: Snapshot, connection: ConnectionInput, rediscovery: bool)
    requires c.authority.Some?
    ensures Covers(Received(c, incoming, Some(connection), rediscovery), c.authority.value)
  {}

  lemma ObservationKeepsAuthority(start: Cell, known: set<Observation>, mid: Cell, o: Observation)
    requires Fenced(start) && Explains(start, known, mid) && Uniform(start, known + {o})
    ensures GreatestAuthority(start, known + {o}, Observed(mid, o))
  {
    var end := Observed(mid, o);
    AuthorityNeverFalls(mid, o);
    forall p | p in known + {o} && Connects(start, p) ensures Covers(end, Proposal(p)) {
      AuthorityCovers(start, known, mid, o, p);
    }
    if end.authority != mid.authority {
      assert o in known + {o} && end.authority == Some(Proposal(o));
    } else if mid.authority != start.authority {
      var p :| p in known && Connects(start, p) && mid.authority == Some(Proposal(p));
      assert p in known + {o};
    }
  }

  lemma {:induction false} ObservationsExplained(start: Cell, os: seq<Observation>)
    requires Fenced(start) && InAgreement(start) && Uniform(start, Elements(os))
    ensures Explains(start, Elements(os), ObservedAll(start, os))
  {
    if os != [] {
      var last := |os| - 1;
      var known, mid := Elements(os[..last]), ObservedAll(start, os[..last]);
      assert Elements(os) == known + {os[last]} by { assert os == os[..last] + [os[last]]; }
      ObservationsExplained(start, os[..last]);
      ObservationAdmits(mid, os[last]);
      AdmissionKeepsFences(start, known, mid, os[last], Observed(mid, os[last]));
      AdmissionKeepsLive(start, known, mid, os[last], Observed(mid, os[last]));
      ObservationKeepsAuthority(start, known, mid, os[last]);
      StepKeepsFencesAndAgreement(mid, OpOf(os[last]));
    }
  }

  lemma SameLive(start: Cell, os: set<Observation>, a: Cell, b: Cell)
    requires Consistent(start, os)
    requires GreatestLive(start, os, a) && GreatestLive(start, os, b)
    ensures a.live == b.live
  {
    assert a.live.Some? <==> b.live.Some?;
    if a.live.Some? { assert a.live.value.version == b.live.value.version; }
  }

  lemma SameAuthority(start: Cell, os: set<Observation>, a: Cell, b: Cell)
    requires Consistent(start, os)
    requires GreatestAuthority(start, os, a) && GreatestAuthority(start, os, b)
    ensures a.authority == b.authority
  {
    assert a.authority.Some? <==> b.authority.Some?;
    if a.authority.Some? { assert RankOf(a.authority.value) == RankOf(b.authority.value); }
  }

  /** Convergence: the same observations, from events, lists and the dashboard, in any order and with
      any repetition, end in the same state, from any state the store can be in. */
  lemma Convergence(start: Cell, os: seq<Observation>, ps: seq<Observation>)
    requires Fenced(start) && InAgreement(start)
    requires Elements(os) == Elements(ps) && Consistent(start, Elements(os)) && Uniform(start, Elements(os))
    ensures ObservedAll(start, os) == ObservedAll(start, ps)
  {
    ObservationsExplained(start, os);
    ObservationsExplained(start, ps);
    SameLive(start, Elements(os), ObservedAll(start, os), ObservedAll(start, ps));
    SameAuthority(start, Elements(os), ObservedAll(start, os), ObservedAll(start, ps));
  }

  /** Without uniform trust the order matters. Behind a deletion fence, a trusted observation above it
      and an event commute exactly when the event is no news after the trusted one, neither by its
      snapshot nor by its connection. */
  lemma MixedTrustCommutesExactly(fence: nat, o: Observation, p: Observation)
    requires o.source.FromTrustedList? && p.source.FromEvent? && o.snapshot.version.incarnation > fence
    ensures InEitherOrder(EMPTY.(deleted := Some(fence)), o, p) <==> (
      && !VersionLess(o.snapshot.version, p.snapshot.version)
      && !(p.snapshot.version.incarnation >= o.snapshot.version.incarnation
           && RankLess(RankOf(Proposal(o)), RankOf(Proposal(p)))))
  {
    UntrustedIsIgnored(EMPTY.(deleted := Some(fence)), p);
    TrustedReopens(EMPTY.(deleted := Some(fence)), o);
  }

  /** The dashboard and a trusted observation commute exactly when the dashboard's snapshot is not
      the newer one; its connection counts in either order. */
  lemma MixedDashboardCommutesExactly(fence: nat, o: Observation, p: Observation)
    requires o.source.FromTrustedList? && p.source.FromDashboard? && o.snapshot.version.incarnation > fence
    requires RankOf(Proposal(o)) == RankOf(Proposal(p)) ==> Proposal(o) == Proposal(p)
    ensures InEitherOrder(EMPTY.(deleted := Some(fence)), o, p)
       <==> !VersionLess(o.snapshot.version, p.snapshot.version)
  {
    var start := EMPTY.(deleted := Some(fence));
    TrustedReopens(start, o);
    TrustedReopens(start.(authority := Some(Proposal(p))), o);
  }

  /** The two observations lead to the same state in either order. */
  predicate InEitherOrder(c: Cell, o: Observation, p: Observation) {
    Observed(Observed(c, o), p) == Observed(Observed(c, p), o)
  }

  lemma UntrustedIsIgnored(c: Cell, p: Observation)
    requires Fenced(c) && c.deleted.Some? && p.source.FromEvent?
    ensures Observed(c, p) == c
  {}

  lemma TrustedReopens(c: Cell, o: Observation)
    requires Fenced(c) && c.deleted.Some? && c.deleted.value < o.snapshot.version.incarnation
    requires o.source.FromTrustedList?
    ensures var end := Observed(c, o);
      && end.deleted.None? && end.retired.None? && end.live == Some(o.snapshot)
      && end.authority == WithAuthority(c, o.connection, o.snapshot).authority
  {}

  // ---------- All instances ----------

  datatype Record = Record(id: InstanceId, observation: Observation)

  function RecordsFor(rs: seq<Record>, id: InstanceId): seq<Observation> {
    if rs == [] then []
    else
      var last := rs[|rs| - 1];
      RecordsFor(rs[..|rs| - 1], id) + (if last.id == id then [last.observation] else [])
  }

  lemma {:induction false} RecordsForMembers(rs: seq<Record>, id: InstanceId)
    ensures forall o :: o in RecordsFor(rs, id) <==> Record(id, o) in rs
  {
    if rs != [] {
      var last := |rs| - 1;
      RecordsForMembers(rs[..last], id);
      assert rs == rs[..last] + [rs[last]];
    }
  }

  /** Convergence for a mixed stream: what one instance ends as depends only on which records
      of it arrived. */
  lemma RecordsConverge(start: Cell, rs: seq<Record>, qs: seq<Record>, id: InstanceId)
    requires Fenced(start) && InAgreement(start)
    requires forall r :: r in rs <==> r in qs
    requires Consistent(start, Elements(RecordsFor(rs, id))) && Uniform(start, Elements(RecordsFor(rs, id)))
    ensures ObservedAll(start, RecordsFor(rs, id)) == ObservedAll(start, RecordsFor(qs, id))
  {
    RecordsForMembers(rs, id);
    RecordsForMembers(qs, id);
    assert Elements(RecordsFor(rs, id)) == Elements(RecordsFor(qs, id));
    Convergence(start, RecordsFor(rs, id), RecordsFor(qs, id));
  }

  /** The stores themselves, one map each. */
  class RuntimeStores {
    var authoritative: map<InstanceId, Snapshot>
    var deletedIncarnations: map<InstanceId, nat>
    var retiredIncarnations: map<InstanceId, nat>
    var authorities: map<InstanceId, Authority>
    var snapshots: map<InstanceId, Snapshot>
    var statuses: map<InstanceId, StatusInfo>

    constructor ()
      ensures forall id :: CellOf(id) == EMPTY
    {
      authoritative, deletedIncarnations, retiredIncarnations := map[], map[], map[];
      authorities, snapshots, statuses := map[], map[], map[];
    }

    ghost function CellOf(id: InstanceId): Cell
      reads this
    {
      Cell(Lookup(authoritative, id), Lookup(deletedIncarnations, id), Lookup(retiredIncarnations, id),
           Lookup(authorities, id), Lookup(snapshots, id), Lookup(statuses, id))
    }

    method Accept(id: InstanceId, incoming: Snapshot, rediscovery: bool)
      returns (accepted: bool, previous: Option<Snapshot>)
      modifies this`authoritative, this`deletedIncarnations, this`retiredIncarnations
      ensures (CellOf(id), accepted) == Admit(old(CellOf(id)), incoming, rediscovery)
      ensures previous == old(CellOf(id)).live
      ensures forall o :: o != id ==> CellOf(o) == old(CellOf(o))
    {
      previous := Lookup(authoritative, id);
      if id in deletedIncarnations {
        if !rediscovery || incoming.version.incarnation <= deletedIncarnations[id] { return false, previous; }
        deletedIncarnations := deletedIncarnations - {id};
      }
      if id in retiredIncarnations && incoming.version.incarnation <= retiredIncarnations[id] {
        return false, previous;
      }
      if !ShouldAccept(previous, incoming) { return false, previous; }
      retiredIncarnations := retiredIncarnations - {id};
      authoritative := authoritative[id := incoming];
      return true, previous;
    }

    method SetAuthority(id: InstanceId, connection: ConnectionInput, runtime: Snapshot)
      modifies this`authorities
      ensures CellOf(id) == WithAuthority(old(CellOf(id)), connection, runtime)
      ensures CellOf(id).authority == old(CellOf(id)).authority
        || (CellOf(id).authority.Some? && Describes(CellOf(id).authority.value, connection, runtime))
      ensures forall o :: o != id ==> CellOf(o) == old(CellOf(o))
    {
      var state := StateOf(connection, runtime);
      if KeepsCurrent(Lookup(authorities, id), state.revision, runtime) { return; }
      var context := if state.present then state.context else None;
      var target := if state.operation.Some? then state.operationTarget else None;
      authorities := authorities[id :=
        Authority(state.(context := context, operationTarget := target),
                  runtime.version.incarnation, runtime.version.generation, runtime.version.revision)];
    }

    method ApplyConnectionAuthority(id: InstanceId, incoming: Snapshot, connection: Option<ConnectionInput>)
      modifies this`authorities
      ensures CellOf(id) == Paired(old(CellOf(id)), incoming, connection)
      ensures forall o :: o != id ==> CellOf(o) == old(CellOf(o))
    {
      if connection == None { return; }
      if id in deletedIncarnations { return; }
      if id in retiredIncarnations && incoming.version.incarnation <= retiredIncarnations[id] { return; }
      if id in authoritative && incoming.version.incarnation < authoritative[id].version.incarnation { return; }
      SetAuthority(id, connection.value, incoming);
    }

    method ApplyToConsumers(id: InstanceId, runtime: Snapshot)
      modifies this`statuses
      ensures CellOf(id) == old(CellOf(id)).(status := Some(Projected(old(CellOf(id)).authority, runtime)))
      ensures forall o :: o != id ==> CellOf(o) == old(CellOf(o))
    {
      statuses := statuses[id := Projected(Lookup(authorities, id), runtime)];
    }

    method ReceiveSnapshot(id: InstanceId, incoming: Snapshot, connection: Option<ConnectionInput>, rediscovery: bool)
      modifies this
      ensures CellOf(id) == Received(old(CellOf(id)), incoming, connection, rediscovery)
      ensures CellOf(id).live.Some? ==> StatusShows(CellOf(id))
      ensures old(InAgreement(CellOf(id))) ==> InAgreement(CellOf(id)) && StatusShows(CellOf(id))
      ensures forall o :: o != id ==> CellOf(o) == old(CellOf(o))
    {
      ReceptionShows(CellOf(id), incoming, connection, rediscovery);
      var accepted, previous := Accept(id, incoming, rediscovery);
      ApplyConnectionAuthority(id, incoming, connection);
      if !accepted {
        if previous.Some? { ApplyToConsumers(id, previous.value); }
        return;
      }
      snapshots := snapshots[id := incoming];
      ApplyToConsumers(id, incoming);
    }

    method EvictSnapshot(id: InstanceId, incarnation: nat)
      modifies this
      ensures CellOf(id) == Evicted(old(CellOf(id)), incarnation)
      ensures forall o :: o != id ==> CellOf(o) == old(CellOf(o))
    {
      var current := if id in authoritative then authoritative[id].version.incarnation else 0;
      var retired := if id in retiredIncarnations then retiredIncarnations[id] else 0;
      var deleted := if id in deletedIncarnations then deletedIncarnations[id] else 0;
      deletedIncarnations := deletedIncarnations[id := Larger(deleted, Larger(current, Larger(retired, incarnation)))];
      authoritative, retiredIncarnations := authoritative - {id}, retiredIncarnations - {id};
      ClearProjections(id);
    }

    method ForgetSnapshot(id: InstanceId)
      modifies this
      ensures CellOf(id) == Forgotten(old(CellOf(id)))
      ensures forall o :: o != id ==> CellOf(o) == old(CellOf(o))
    {
      if id in authoritative {
        var retired := if id in retiredIncarnations then retiredIncarnations[id] else 0;
        retiredIncarnations := retiredIncarnations[id := Larger(retired, authoritative[id].version.incarnation)];
      }
      authoritative := authoritative - {id};
      ClearProjections(id);
    }

    method ClearProjections(id: InstanceId)
      modifies this`authorities, this`statuses, this`snapshots
      ensures CellOf(id) == old(CellOf(id)).(authority := None, shown := None, status := None)
      ensures forall o :: o != id ==> CellOf(o) == old(CellOf(o))
    {
      authorities, statuses, snapshots := authorities - {id}, statuses - {id}, snapshots - {id};
    }

    method ReceiveRecord(r: Record)
      requires r.observation.source.FromEvent?
      modifies this
      ensures CellOf(r.id) == Observed(old(CellOf(r.id)), r.observation)
      ensures forall o :: o != r.id ==> CellOf(o) == old(CellOf(o))
    {
      ReceiveSnapshot(r.id, r.observation.snapshot, Some(r.observation.connection), false);
    }

    /** `resync` and the end of `initialize`: every record in turn. */
    method ReceiveRecords(rs: seq<Record>)
      requires forall r :: r in rs ==> r.observation.source.FromEvent?
      modifies this
      ensures forall id :: CellOf(id) == ObservedAll(old(CellOf(id)), RecordsFor(rs, id))
    {
      for i := 0 to |rs|
        invariant forall id :: CellOf(id) == ObservedAll(old(CellOf(id)), RecordsFor(rs[..i], id))
      {
        forall id ensures OneMoreRecord(old(CellOf(id)), rs, i, id) {
          RecordsForNext(old(CellOf(id)), rs, i, id);
        }
        ReceiveRecord(rs[i]);
      }
      assert rs[..|rs|] == rs;
    }
  }

  /** What the next record does to one instance. */
  ghost predicate OneMoreRecord(c: Cell, rs: seq<Record>, i: nat, id: InstanceId)
    requires i < |rs|
  {
    var before := ObservedAll(c, RecordsFor(rs[..i], id));
    ObservedAll(c, RecordsFor(rs[..i + 1], id))
      == if rs[i].id == id then Observed(before, rs[i].observation) else before
  }

  lemma RecordsForNext(c: Cell, rs: seq<Record>, i: nat, id: InstanceId)
    requires i < |rs|
    ensures OneMoreRecord(c, rs, i, id)
  {
    var known := RecordsFor(rs[..i], id);
    assert rs[..i + 1][..i] == rs[..i];
    assert (known + [rs[i].observation])[..|known|] == known && known + [] == known;
  }
}
