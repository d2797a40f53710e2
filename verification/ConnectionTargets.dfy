/** Connecting Computers to SMCP targets (src-tauri/src/commands/connection.rs).

    An attempt captures what it connects to, reserves the target and office identities, looks for
    conflicts one Computer at a time, connects over the network, installs the connection, and only
    then reads everything again and commits. No lock spans these parts; inside the commit, the
    Computer's gate and the target lock are held over several steps. Any number of attempts,
    edits, deletions, disconnects and lifecycle changes interleave. */
module ConnectionTargets {
  import opened Outcomes
  import opened ConnectionReservations

  type AttemptId = nat

  // ---------- Data ----------

  datatype Lifecycle =
    | Created | Starting | Started | Connecting | Connected | JoinedOffice | Syncing | Degraded
    | Disconnecting | Stopping | Stopped | Shutdown | Failed

  datatype Target = Target(id: string, office: string, endpoint: string)

  /** What a commit compares of a Computer's profile. */
  datatype Profile = Profile(name: string, policyTarget: Option<string>, binding: Option<string>)

  /** What an attempt connects to, with what it captured when it began. */
  datatype Kind =
    | Manual(record: Target, key: Option<string>, captured: Profile)
    | Manager(target: string, office: string, binding: string, captured: Profile)

  datatype Connection = Connection(made: Kind, maker: AttemptId, committed: bool)

  datatype Computer = Computer(
    profile: Profile, lifecycle: Lifecycle, connection: Option<Connection>, operation: Option<AttemptId>)

  /** How far a commit got while it holds its locks. */
  datatype Progress = Entered | FoundCurrent | RecordRead | KeyRead | ProfileRead | Saved

  /** `Checking` still has to look at some Computers, and may have read the lifecycle state of one;
      `Ready` has only the commit left. */
  datatype Stage =
    | Begun
    | Checking(unchecked: set<ComputerId>, read: Option<(ComputerId, bool)>)
    | Checked
    | Ready
    | Gated
    | Committing(progress: Progress)
    | Clearing
    | Dropping(succeeded: bool)
    | Settling(succeeded: bool)

  datatype Attempt = Attempt(computer: ComputerId, kind: Kind, stage: Stage)

  datatype TargetLock =
    | Free
    | HeldByCommit(attempt: AttemptId)
    | HeldByDeletion(target: string, unlisted: set<ComputerId>)

  /** The catalog of manual targets, and their API keys. */
  datatype Catalog = Catalog(records: map<string, Target>, keys: map<string, string>)

  datatype State = State(
    catalog: Catalog,
    computers: map<ComputerId, Computer>, removed: set<ComputerId>,
    reservations: map<string, ComputerId>, attempts: map<AttemptId, Attempt>,
    targetLock: TargetLock, gates: map<ComputerId, AttemptId>)

  // ---------- Steps ----------

  datatype LookStep =
    | Reserve
    | ReadLifecycle(computer: ComputerId)
    | ReadConnection
    | EndCheck

  datatype CommitStep =
    | TakeGate
    | TakeLock
    | EnsureCurrent
    | ReadRecord
    | ReadKey
    | ReadProfile
    | SaveProfile
    | ApplyProfile
    | AbandonCommit(restored: bool)   // a read, the save or the application fails

  datatype EndStep =
    | GiveUp
    | Clear(transport: bool)
    | Drop
    | Settle

  datatype DeletionFault = NoFault | NothingDeleted | KeyLost

  datatype CatalogStep =
    | SaveTarget(record: Target, key: Option<string>)
    | SaveKeyOnly(id: string, key: Option<string>)   // a save that failed after its key was written
    | StartDeletion(target: string)
    | CheckDeletion(computer: ComputerId)
    | EndDeletion(fault: DeletionFault)

  datatype ComputerStep =
    | EditProfile(computer: ComputerId, profile: Profile)
    | SetLifecycle(computer: ComputerId, lifecycle: Lifecycle)
    | Disconnect(computer: ComputerId)
    | SetOperation(computer: ComputerId, operation: Option<AttemptId>)
    | AddComputer(computer: ComputerId, profile: Profile)
    | RemoveComputer(computer: ComputerId)

  datatype Step =
    | BeginManual(attempt: AttemptId, computer: ComputerId, target: string)
    | BeginManager(attempt: AttemptId, computer: ComputerId, target: string, office: string, binding: string)
    | FindConnected(computer: ComputerId, target: string)
    | Look(attempt: AttemptId, look: LookStep)
    | Install(attempt: AttemptId)
    | Commit(attempt: AttemptId, commit: CommitStep)
    | End(attempt: AttemptId, end: EndStep)
    | ChangeCatalog(change: CatalogStep)
    | ChangeComputer(changed: ComputerStep)

  // ---------- Decisions ----------

  function TargetOf(k: Kind): string {
    if k.Manual? then k.record.id else k.target
  }

  function OfficeOf(k: Kind): string {
    if k.Manual? then k.record.office else k.office
  }

  function KeysOf(a: Attempt): set<string> {
    Keys(TargetOf(a.kind), OfficeOf(a.kind))
  }

  predicate Conflict(a: Kind, b: Kind) {
    TargetOf(a) == TargetOf(b) || OfficeOf(a) == OfficeOf(b)
  }

  /** `connection_snapshot_blocks_target`. */
  predicate Blocks(l: Lifecycle, same: bool) {
    || l.Connecting? || l.Connected? || l.JoinedOffice? || l.Syncing? || l.Degraded? || l.Disconnecting?
    || (l.Started? && !same)
  }

  /** The states in which a runtime can have a connection; it loses it when it leaves them. */
  predicate CanBeConnected(l: Lifecycle) {
    !(l.Created? || l.Starting? || l.Stopping? || l.Stopped? || l.Shutdown? || l.Failed?)
  }

  datatype Decision = Proceed | AlreadyConnected | Refuse

  /** `manager_connection_decision`. */
  function Decide(computer: ComputerId, wanted: Kind, other: ComputerId, held: Kind): Decision {
    if other == computer then (if TargetOf(held) == TargetOf(wanted) then AlreadyConnected else Refuse)
    else if Conflict(held, wanted) then Refuse
    else Proceed
  }

  predicate Holds(st: Stage) {
    || st.Checking? || st.Checked? || st.Ready? || st.Gated? || st.Committing? || st.Clearing? || st.Dropping?
  }

  /** `ensure_connection_operation`: the Computer is there, and the operation is the attempt's. */
  predicate IsCurrent(s: State, k: AttemptId)
    requires k in s.attempts
  {
    var c := s.attempts[k].computer;
    c in s.computers && s.computers[c].operation == Some(k)
  }

  /** The record the attempt captured is the stored one. */
  predicate RecordStored(s: State, kind: Kind) {
    kind.Manual? ==> kind.record.id in s.catalog.records && s.catalog.records[kind.record.id] == kind.record
  }

  predicate KeyStored(s: State, kind: Kind) {
    kind.Manual? ==> Lookup(s.catalog.keys, kind.record.id) == kind.key
  }

  predicate ProfileIs(s: State, c: ComputerId, profile: Profile) {
    c in s.computers && s.computers[c].profile == profile
  }

  /** The captured profile with the target of the attempt, and a Manager's binding. */
  function SavedProfile(kind: Kind): Profile {
    kind.captured.(policyTarget := Some(TargetOf(kind)),
                   binding := if kind.Manager? then Some(kind.binding) else kind.captured.binding)
  }

  // ---------- Changing parts of the state ----------

  function Staged(s: State, k: AttemptId, stage: Stage): State
    requires k in s.attempts
  {
    s.(attempts := s.attempts[k := s.attempts[k].(stage := stage)])
  }

  function WithComputer(s: State, c: ComputerId, computer: Computer): State {
    s.(computers := s.computers[c := computer])
  }

  function Disconnected(s: State, c: ComputerId): State {
    if c in s.computers then WithComputer(s, c, s.computers[c].(connection := None)) else s
  }

  /** The locks of a commit are let go. */
  function Unlocked(s: State, k: AttemptId): State
    requires k in s.attempts
  {
    s.(gates := s.gates - {s.attempts[k].computer},
       targetLock := if s.attempts[k].kind.Manual? then Free else s.targetLock)
  }

  // ---------- Looking for conflicts ----------

  predicate LookEnabled(s: State, k: AttemptId, look: LookStep) {
    && k in s.attempts
    && var st := s.attempts[k].stage;
      match look
      case Reserve => st == Begun
      case ReadLifecycle(c) => st.Checking? && st.read == None && c in st.unchecked
      case ReadConnection => st.Checking? && st.read.Some?
      case EndCheck => st == Checking({}, None)
  }

  /** One Computer's connection is read: it may settle the attempt. A Manager attempt that finds its
      own Computer connected still commits. */
  function StageAfterReading(s: State, a: Attempt): Stage
    requires a.stage.Checking? && a.stage.read.Some?
  {
    var (c, blocks) := a.stage.read.value;
    var connection := if c in s.computers then s.computers[c].connection else None;
    if connection.None? || !blocks then Checking(a.stage.unchecked - {c}, None)
    else match Decide(a.computer, a.kind, c, connection.value.made)
      case Proceed => Checking(a.stage.unchecked - {c}, None)
      case AlreadyConnected => if a.kind.Manual? then Dropping(true) else Ready
      case Refuse => Clearing
  }

  function AfterReserve(s: State, k: AttemptId): State
    requires k in s.attempts
  {
    var a := s.attempts[k];
    if KeysOf(a) !! s.reservations.Keys
    then Staged(s, k, Checking(s.computers.Keys, None))
      .(reservations := ReservedMap(s.reservations, KeysOf(a), a.computer))
    else Staged(s, k, Settling(false))
  }

  function AfterLook(s: State, k: AttemptId, look: LookStep): State
    requires LookEnabled(s, k, look)
  {
    var a := s.attempts[k];
    match look
    case Reserve => AfterReserve(s, k)
    case ReadLifecycle(c) =>
      var blocks := c in s.computers && Blocks(s.computers[c].lifecycle, c == a.computer);
      Staged(s, k, a.stage.(read := Some((c, blocks))))
    case ReadConnection => Staged(s, k, StageAfterReading(s, a))
    case EndCheck => Staged(s, k, Checked)
  }

  function AfterInstall(s: State, k: AttemptId): State
    requires k in s.attempts
  {
    var a := s.attempts[k];
    if a.computer !in s.computers || s.computers[a.computer].connection.Some? then Staged(s, k, Clearing)
    else
      var connection := Connection(a.kind, k, false);
      WithComputer(Staged(s, k, Ready), a.computer,
                   s.computers[a.computer].(lifecycle := JoinedOffice, connection := Some(connection)))
  }

  // ---------- The commit ----------

  predicate CommitEnabled(s: State, k: AttemptId, step: CommitStep) {
    && k in s.attempts
    && var a := s.attempts[k];
      match step
      case TakeGate => a.stage == Ready && a.computer !in s.gates
      case TakeLock => a.stage == Gated && (a.kind.Manual? ==> s.targetLock == Free)
      case EnsureCurrent => a.stage == Committing(Entered)
      case ReadRecord => a.stage == Committing(FoundCurrent) && a.kind.Manual?
      case ReadKey => a.stage == Committing(RecordRead)
      case ReadProfile => a.stage == Committing(if a.kind.Manual? then KeyRead else FoundCurrent)
      case SaveProfile => a.stage == Committing(ProfileRead) && a.computer in s.computers
      case ApplyProfile => a.stage == Committing(Saved) && a.computer in s.computers
      case AbandonCommit(_) => a.stage.Committing?
  }

  /** One comparison: the commit goes on, or lets go of its locks and clears up. */
  function Compared(s: State, k: AttemptId, holds: bool, next: Progress): State
    requires k in s.attempts
  {
    if holds then Staged(s, k, Committing(next)) else Staged(Unlocked(s, k), k, Clearing)
  }

  function MarkedCommitted(c: Computer, k: AttemptId): Computer {
    if c.connection.Some? && c.connection.value.maker == k
    then c.(connection := Some(c.connection.value.(committed := true))) else c
  }

  function AfterAbandoning(s: State, k: AttemptId, restored: bool): State
    requires k in s.attempts && s.attempts[k].stage.Committing?
  {
    var a := s.attempts[k];
    var freed := Staged(Unlocked(s, k), k, Clearing);
    if restored && a.stage.progress == Saved && a.computer in s.computers
    then WithComputer(freed, a.computer, s.computers[a.computer].(profile := a.kind.captured)) else freed
  }

  function AfterCommit(s: State, k: AttemptId, step: CommitStep): State
    requires CommitEnabled(s, k, step)
  {
    var a := s.attempts[k];
    match step
    case TakeGate => Staged(s, k, Gated).(gates := s.gates[a.computer := k])
    case TakeLock =>
      Staged(s, k, Committing(Entered)).(targetLock := if a.kind.Manual? then HeldByCommit(k) else s.targetLock)
    case EnsureCurrent => Compared(s, k, IsCurrent(s, k), FoundCurrent)
    case ReadRecord => Compared(s, k, RecordStored(s, a.kind), RecordRead)
    case ReadKey => Compared(s, k, KeyStored(s, a.kind), KeyRead)
    case ReadProfile => Compared(s, k, ProfileIs(s, a.computer, a.kind.captured), ProfileRead)
    case SaveProfile =>
      var c := s.computers[a.computer];
      var saved := c.profile.(policyTarget := Some(TargetOf(a.kind)),
                              binding := if a.kind.Manager? then Some(a.kind.binding) else c.profile.binding);
      WithComputer(Staged(s, k, Committing(Saved)), a.computer, c.(profile := saved))
    case ApplyProfile =>
      WithComputer(Staged(Unlocked(s, k), k, Dropping(true)), a.computer,
                   MarkedCommitted(s.computers[a.computer], k))
    case AbandonCommit(restored) => AfterAbandoning(s, k, restored)
  }

  // ---------- Ends ----------

  predicate EndEnabled(s: State, k: AttemptId, step: EndStep) {
    && k in s.attempts
    && var st := s.attempts[k].stage;
      match step
      case GiveUp => st.Checking? || st == Checked || st == Ready
      case Clear(_) => st == Clearing
      case Drop => st.Dropping?
      case Settle => st.Settling?
  }

  function AfterSettling(s: State, k: AttemptId): State
    requires k in s.attempts && s.attempts[k].stage.Settling?
  {
    var a := s.attempts[k];
    var ended := s.(attempts := s.attempts - {k});
    if !IsCurrent(s, k) then ended
    else
      var c := s.computers[a.computer];
      WithComputer(ended, a.computer,
                   c.(operation := None, connection := if a.stage.succeeded then c.connection else None))
  }

  function AfterEnd(s: State, k: AttemptId, step: EndStep): State
    requires EndEnabled(s, k, step)
  {
    var a := s.attempts[k];
    match step
    case GiveUp => Staged(s, k, Clearing)
    case Clear(transport) =>
      var cleared := Staged(s, k, Dropping(false));
      if IsCurrent(s, k) && transport then Disconnected(cleared, a.computer) else cleared
    case Drop =>
      Staged(s, k, Settling(a.stage.succeeded))
        .(reservations := DroppedMap(s.reservations, KeysOf(a), a.computer))
    case Settle => AfterSettling(s, k)
  }

  // ---------- Everything else ----------

  predicate CatalogEnabled(s: State, step: CatalogStep) {
    match step
    case CheckDeletion(c) => s.targetLock.HeldByDeletion? && c in s.targetLock.unlisted
    case EndDeletion(_) => s.targetLock.HeldByDeletion? && s.targetLock.unlisted == {}
    case _ => s.targetLock == Free
  }

  /** A deletion reads the Computers' connections one by one under the target lock. */
  function AfterDeletionCheck(s: State, c: ComputerId): State
    requires s.targetLock.HeldByDeletion?
  {
    var connected := c in s.computers && s.computers[c].connection.Some?
      && TargetOf(s.computers[c].connection.value.made) == s.targetLock.target;
    s.(targetLock := if connected then Free else s.targetLock.(unlisted := s.targetLock.unlisted - {c}))
  }

  function AfterCatalog(s: State, step: CatalogStep): State
    requires CatalogEnabled(s, step)
  {
    match step
    case SaveTarget(record, key) =>
      s.(catalog := Catalog(s.catalog.records[record.id := record], WithEntry(s.catalog.keys, record.id, key)))
    case SaveKeyOnly(id, key) => s.(catalog := s.catalog.(keys := WithEntry(s.catalog.keys, id, key)))
    case StartDeletion(target) => s.(targetLock := HeldByDeletion(target, s.computers.Keys))
    case CheckDeletion(c) => AfterDeletionCheck(s, c)
    case EndDeletion(fault) =>
      var target := s.targetLock.target;
      s.(targetLock := Free,
         catalog := Catalog(if fault == NoFault then s.catalog.records - {target} else s.catalog.records,
                            if fault == NothingDeleted then s.catalog.keys else s.catalog.keys - {target}))
  }

  predicate ComputerEnabled(s: State, step: ComputerStep) {
    match step
    case AddComputer(c, _) => c !in s.computers && c !in s.removed
    case SetOperation(c, operation) => c in s.computers && (operation.Some? ==> operation.value !in s.attempts)
    case EditProfile(c, _) => c in s.computers && c !in s.gates
    case RemoveComputer(c) => c in s.computers && c !in s.gates
    case _ => step.computer in s.computers
  }

  function AfterComputer(s: State, step: ComputerStep): State
    requires ComputerEnabled(s, step)
  {
    match step
    case EditProfile(c, profile) => WithComputer(s, c, s.computers[c].(profile := profile))
    case SetLifecycle(c, lifecycle) =>
      var kept := if CanBeConnected(lifecycle) then s.computers[c].connection else None;
      WithComputer(s, c, s.computers[c].(lifecycle := lifecycle, connection := kept))
    case Disconnect(c) => Disconnected(s, c)
    case SetOperation(c, operation) => WithComputer(s, c, s.computers[c].(operation := operation))
    case AddComputer(c, profile) => WithComputer(s, c, Computer(profile, Created, None, None))
    case RemoveComputer(c) => s.(computers := s.computers - {c}, removed := s.removed + {c})
  }

  /** Attempts are named once. */
  ghost predicate IsNew(s: State, k: AttemptId) {
    && k !in s.attempts
    && forall c :: c in s.computers && s.computers[c].connection.Some? ==> s.computers[c].connection.value.maker != k
  }

  ghost predicate BeginEnabled(s: State, k: AttemptId, c: ComputerId) {
    IsNew(s, k) && c in s.computers && c !in s.gates && s.computers[c].operation == None
  }

  function Began(s: State, k: AttemptId, c: ComputerId, kind: Kind): State
    requires c in s.computers
  {
    WithComputer(s, c, s.computers[c].(operation := Some(k))).(attempts := s.attempts[k := Attempt(c, kind, Begun)])
  }

  ghost predicate Enabled(s: State, step: Step) {
    match step
    case BeginManual(k, c, target) => BeginEnabled(s, k, c) && s.targetLock == Free && target in s.catalog.records
    case BeginManager(k, c, _, _, _) => BeginEnabled(s, k, c)
    case FindConnected(c, target) =>
      && c in s.computers && c !in s.gates && s.targetLock == Free && target in s.catalog.records
      && s.computers[c].connection.Some? && TargetOf(s.computers[c].connection.value.made) == target
    case Look(k, look) => LookEnabled(s, k, look)
    case Install(k) => k in s.attempts && s.attempts[k].stage == Checked
    case Commit(k, commit) => CommitEnabled(s, k, commit)
    case End(k, end) => EndEnabled(s, k, end)
    case ChangeCatalog(change) => CatalogEnabled(s, change)
    case ChangeComputer(changed) => ComputerEnabled(s, changed)
  }

  ghost function Apply(s: State, step: Step): State
    requires Enabled(s, step)
  {
    match step
    case BeginManual(k, c, target) =>
      var kind := Manual(s.catalog.records[target], Lookup(s.catalog.keys, target), s.computers[c].profile);
      Began(s, k, c, kind)
    case BeginManager(k, c, target, office, binding) =>
      Began(s, k, c, Manager(target, office, binding, s.computers[c].profile))
    case FindConnected(_, _) => s
    case Look(k, look) => AfterLook(s, k, look)
    case Install(k) => AfterInstall(s, k)
    case Commit(k, commit) => AfterCommit(s, k, commit)
    case End(k, end) => AfterEnd(s, k, end)
    case ChangeCatalog(change) => AfterCatalog(s, change)
    case ChangeComputer(changed) => AfterComputer(s, changed)
  }
}
