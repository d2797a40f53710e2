/** What every step of the connect protocol keeps, and what holds in every run. */
module ConnectionRuns {
  import opened Outcomes
  import opened ConnectionReservations
  import opened ConnectionTargets

  // ---------- Who a step moves ----------

  /** The attempt a step moves on or begins, if any. */
  function Actor(step: Step): Option<AttemptId> {
    match step
    case BeginManual(k, _, _) => Some(k)
    case BeginManager(k, _, _, _, _) => Some(k)
    case Look(k, _) => Some(k)
    case Install(k) => Some(k)
    case Commit(k, _) => Some(k)
    case End(k, _) => Some(k)
    case _ => None
  }

  predicate SameAttempt(s: State, s': State, k: AttemptId) {
    && (k in s'.attempts <==> k in s.attempts)
    && (k in s.attempts ==> s'.attempts[k] == s.attempts[k])
  }

  lemma LookLeavesOthers(s: State, j: AttemptId, look: LookStep, k: AttemptId)
    requires LookEnabled(s, j, look) && k != j
    ensures SameAttempt(s, AfterLook(s, j, look), k)
  {}

  lemma CommitLeavesOthers(s: State, j: AttemptId, commit: CommitStep, k: AttemptId)
    requires CommitEnabled(s, j, commit) && k != j
    ensures SameAttempt(s, AfterCommit(s, j, commit), k)
  {}

  lemma EndLeavesOthers(s: State, j: AttemptId, end: EndStep, k: AttemptId)
    requires EndEnabled(s, j, end) && k != j
    ensures SameAttempt(s, AfterEnd(s, j, end), k)
  {}

  lemma EnvironmentLeavesAttempts(s: State, step: Step)
    requires Enabled(s, step) && Actor(step) == None
    ensures Apply(s, step).attempts == s.attempts && Apply(s, step).reservations == s.reservations
  {}

  lemma StepLeavesOthers(s: State, step: Step, k: AttemptId)
    requires Enabled(s, step) && Actor(step) != Some(k)
    ensures SameAttempt(s, Apply(s, step), k)
  {
    match step
    case Look(j, look) => LookLeavesOthers(s, j, look, k);
    case Commit(j, commit) => CommitLeavesOthers(s, j, commit, k);
    case End(j, end) => EndLeavesOthers(s, j, end, k);
    case ChangeCatalog(_) => EnvironmentLeavesAttempts(s, step);
    case ChangeComputer(_) => EnvironmentLeavesAttempts(s, step);
    case _ =>
  }

  // ---------- Reservations are the live attempts' keys ----------

  ghost predicate HoldsKey(s: State, k: AttemptId, key: string) {
    k in s.attempts && Holds(s.attempts[k].stage) && key in KeysOf(s.attempts[k])
  }

  /** The map holds exactly the keys of the live reservations, each under its owner, and no two
      live reservations share one. */
  ghost predicate KeyOk(s: State, key: string) {
    && (key in s.reservations ==> exists k :: HoldsKey(s, k, key))
    && (forall k :: HoldsKey(s, k, key) ==> key in s.reservations && s.reservations[key] == s.attempts[k].computer)
    && (forall j, k :: HoldsKey(s, j, key) && HoldsKey(s, k, key) ==> j == k)
  }

  ghost predicate ReservationsInv(s: State) {
    forall key :: KeyOk(s, key)
  }

  /** The attempt holds its reservation as before. */
  predicate SameHolder(s: State, s': State, k: AttemptId) {
    && (k in s'.attempts && Holds(s'.attempts[k].stage) <==> k in s.attempts && Holds(s.attempts[k].stage))
    && (k in s.attempts && k in s'.attempts ==>
      s'.attempts[k].computer == s.attempts[k].computer && s'.attempts[k].kind == s.attempts[k].kind)
  }

  lemma LookKeepsHolder(s: State, k: AttemptId, look: LookStep)
    requires LookEnabled(s, k, look) && !look.Reserve?
    ensures SameHolder(s, AfterLook(s, k, look), k)
    ensures AfterLook(s, k, look).reservations == s.reservations
  {}

  lemma CommitKeepsHolder(s: State, k: AttemptId, commit: CommitStep)
    requires CommitEnabled(s, k, commit)
    ensures SameHolder(s, AfterCommit(s, k, commit), k)
    ensures AfterCommit(s, k, commit).reservations == s.reservations
  {}

  lemma EndKeepsHolder(s: State, k: AttemptId, end: EndStep)
    requires EndEnabled(s, k, end) && !end.Drop?
    ensures SameHolder(s, AfterEnd(s, k, end), k)
    ensures AfterEnd(s, k, end).reservations == s.reservations
  {}

  /** Only `Reserve` and `Drop` change who holds what. */
  predicate ChangesReservations(step: Step) {
    (step.Look? && step.look.Reserve?) || (step.End? && step.end.Drop?)
  }

  lemma ActorKeepsHolder(s: State, step: Step)
    requires Enabled(s, step) && !ChangesReservations(step) && Actor(step).Some?
    ensures SameHolder(s, Apply(s, step), Actor(step).value)
    ensures Apply(s, step).reservations == s.reservations
  {
    match step
    case Look(k, look) => LookKeepsHolder(s, k, look);
    case Commit(k, commit) => CommitKeepsHolder(s, k, commit);
    case End(k, end) => EndKeepsHolder(s, k, end);
    case _ =>
  }

  lemma StepKeepsHolder(s: State, step: Step, k: AttemptId)
    requires Enabled(s, step) && !ChangesReservations(step)
    ensures SameHolder(s, Apply(s, step), k) && Apply(s, step).reservations == s.reservations
  {
    if Actor(step) != Some(k) { StepLeavesOthers(s, step, k); }
    if Actor(step).Some? { ActorKeepsHolder(s, step); } else { EnvironmentLeavesAttempts(s, step); }
  }

  lemma SameHoldersKeepKey(s: State, s': State, key: string)
    requires KeyOk(s, key) && s'.reservations == s.reservations
    requires forall k :: SameHolder(s, s', k)
    ensures KeyOk(s', key)
  {
    forall k ensures HoldsKey(s', k, key) <==> HoldsKey(s, k, key)
      ensures HoldsKey(s', k, key) ==> s'.attempts[k].computer == s.attempts[k].computer
    {
      assert SameHolder(s, s', k);
    }
    if key in s.reservations {
      var k :| HoldsKey(s, k, key);
      assert HoldsKey(s', k, key);
    }
  }

  lemma ReserveKeepsKey(s: State, k: AttemptId, key: string)
    requires ReservationsInv(s) && LookEnabled(s, k, Reserve)
    ensures KeyOk(AfterReserve(s, k), key)
  {
    var s' := AfterReserve(s, k);
    assert KeyOk(s, key);
    if KeysOf(s.attempts[k]) !! s.reservations.Keys && key in KeysOf(s.attempts[k]) { assert HoldsKey(s', k, key); }
    forall j | j != k ensures HoldsKey(s', j, key) <==> HoldsKey(s, j, key) {}
  }

  lemma DropKeepsKey(s: State, k: AttemptId, key: string)
    requires ReservationsInv(s) && EndEnabled(s, k, Drop)
    ensures KeyOk(AfterEnd(s, k, Drop), key)
  {
    var s' := AfterEnd(s, k, Drop);
    assert KeyOk(s, key);
    forall j | j != k ensures HoldsKey(s', j, key) <==> HoldsKey(s, j, key) {}
    if key in KeysOf(s.attempts[k]) { assert HoldsKey(s, k, key); }
  }

  lemma StepKeepsReservations(s: State, step: Step)
    requires ReservationsInv(s) && Enabled(s, step)
    ensures ReservationsInv(Apply(s, step))
  {
    forall key ensures KeyOk(Apply(s, step), key) {
      assert KeyOk(s, key);
      if !ChangesReservations(step) {
        forall k ensures SameHolder(s, Apply(s, step), k) { StepKeepsHolder(s, step, k); }
        StepKeepsHolder(s, step, 0);
        SameHoldersKeepKey(s, Apply(s, step), key);
      } else if step.Look? {
        ReserveKeepsKey(s, step.attempt, key);
      } else {
        DropKeepsKey(s, step.attempt, key);
      }
    }
  }

  /** Two attempts that both hold a reservation do not compete for a target or an office. */
  lemma LiveReservationsDisjoint(s: State, j: AttemptId, k: AttemptId)
    requires ReservationsInv(s) && j in s.attempts && k in s.attempts && j != k
    requires Holds(s.attempts[j].stage) && Holds(s.attempts[k].stage)
    ensures !Conflict(s.attempts[j].kind, s.attempts[k].kind)
  {
    var a, b := s.attempts[j].kind, s.attempts[k].kind;
    if Conflict(a, b) {
      var key := if TargetOf(a) == TargetOf(b) then TargetKey(TargetOf(a)) else OfficeKey(OfficeOf(a));
      assert HoldsKey(s, j, key) && HoldsKey(s, k, key) && KeyOk(s, key);
    }
  }

  // ---------- No two Computers on one target or office ----------

  ghost predicate Connects(s: State, c: ComputerId, connection: Connection) {
    c in s.computers && s.computers[c].connection == Some(connection)
  }

  ghost predicate LifecycleOk(s: State, c: ComputerId) {
    c in s.computers && s.computers[c].connection.Some? ==> CanBeConnected(s.computers[c].lifecycle)
  }

  /** What the attempt has already found out about another Computer. */
  predicate IsClear(a: Attempt, c: ComputerId) {
    match a.stage
    case Checking(unchecked, read) => c !in unchecked || read == Some((c, false))
    case Checked => true
    case _ => false
  }

  /** A check made under a reservation stays valid. */
  ghost predicate ClearOk(s: State, k: AttemptId, c: ComputerId) {
    k in s.attempts && c in s.computers && s.computers[c].connection.Some?
      && c != s.attempts[k].computer && IsClear(s.attempts[k], c)
    ==> !Conflict(s.computers[c].connection.value.made, s.attempts[k].kind)
  }

  ghost predicate PairOk(s: State, c: ComputerId, d: ComputerId) {
    c != d && c in s.computers && d in s.computers && s.computers[c].connection.Some? && s.computers[d].connection.Some?
    ==> !Conflict(s.computers[c].connection.value.made, s.computers[d].connection.value.made)
  }

  ghost predicate ExclusiveInv(s: State) {
    && (forall c :: LifecycleOk(s, c))
    && (forall k, c :: ClearOk(s, k, c))
    && (forall c, d :: PairOk(s, c, d))
  }

  /** The Computer has the connection it had, or none, and its lifecycle still fits. */
  ghost predicate Keeps(s: State, s': State, c: ComputerId) {
    c in s'.computers && s'.computers[c].connection.Some? ==>
      && c in s.computers && s.computers[c].connection.Some?
      && s'.computers[c].connection.value.made == s.computers[c].connection.value.made
      && s'.computers[c].connection.value.maker == s.computers[c].connection.value.maker
      && (CanBeConnected(s.computers[c].lifecycle) ==> CanBeConnected(s'.computers[c].lifecycle))
  }

  lemma CommitKeepsConnection(s: State, k: AttemptId, commit: CommitStep, c: ComputerId)
    requires CommitEnabled(s, k, commit)
    ensures Keeps(s, AfterCommit(s, k, commit), c)
  {}

  lemma EndKeepsConnection(s: State, k: AttemptId, end: EndStep, c: ComputerId)
    requires EndEnabled(s, k, end)
    ensures Keeps(s, AfterEnd(s, k, end), c)
  {}

  lemma ComputerStepKeepsConnection(s: State, changed: ComputerStep, c: ComputerId)
    requires ComputerEnabled(s, changed)
    ensures Keeps(s, AfterComputer(s, changed), c)
  {}

  lemma LookKeepsComputers(s: State, k: AttemptId, look: LookStep)
    requires LookEnabled(s, k, look)
    ensures AfterLook(s, k, look).computers == s.computers
  {}

  /** Connections only appear by `Install`. */
  lemma StepKeepsConnection(s: State, step: Step, c: ComputerId)
    requires Enabled(s, step) && (step.Install? ==> c != s.attempts[step.attempt].computer)
    ensures Keeps(s, Apply(s, step), c)
  {
    match step
    case Look(k, look) => LookKeepsComputers(s, k, look);
    case Commit(k, commit) => CommitKeepsConnection(s, k, commit, c);
    case End(k, end) => EndKeepsConnection(s, k, end, c);
    case ChangeComputer(changed) => ComputerStepKeepsConnection(s, changed, c);
    case _ =>
  }

  lemma StepKeepsLifecycle(s: State, step: Step, c: ComputerId)
    requires LifecycleOk(s, c) && Enabled(s, step)
    ensures LifecycleOk(Apply(s, step), c)
  {
    if !step.Install? { StepKeepsConnection(s, step, c); }
  }

  /** Only looking teaches an attempt anything. */
  lemma OnlyLookingClears(s: State, step: Step, c: ComputerId)
    requires Enabled(s, step) && Actor(step).Some? && !step.Look?
    ensures var k := Actor(step).value; k in Apply(s, step).attempts ==> !IsClear(Apply(s, step).attempts[k], c)
  {
    match step
    case Commit(k, commit) => CommitClearsNothing(s, k, commit, c);
    case End(k, end) => EndClearsNothing(s, k, end, c);
    case _ =>
  }

  lemma CommitClearsNothing(s: State, k: AttemptId, commit: CommitStep, c: ComputerId)
    requires CommitEnabled(s, k, commit)
    ensures !IsClear(AfterCommit(s, k, commit).attempts[k], c)
  {}

  lemma EndClearsNothing(s: State, k: AttemptId, end: EndStep, c: ComputerId)
    requires EndEnabled(s, k, end)
    ensures k in AfterEnd(s, k, end).attempts ==> !IsClear(AfterEnd(s, k, end).attempts[k], c)
  {}

  /** Lifecycle and connection are read in two steps, and a connection may come in between: it
      cannot conflict, because it is installed under another reservation. */
  lemma LearntIsClear(s: State, k: AttemptId, look: LookStep, c: ComputerId)
    requires ExclusiveInv(s) && LookEnabled(s, k, look)
    ensures ClearOk(AfterLook(s, k, look), k, c)
  {
    assert LifecycleOk(s, c) && ClearOk(s, k, c);
    LookKeepsComputers(s, k, look);
    match look
    case Reserve =>
    case ReadLifecycle(_) =>
    case ReadConnection => ReadingIsClear(s, k, c);
    case EndCheck =>
  }

  lemma ReadingIsClear(s: State, k: AttemptId, c: ComputerId)
    requires LookEnabled(s, k, ReadConnection) && ClearOk(s, k, c)
    ensures ClearOk(Staged(s, k, StageAfterReading(s, s.attempts[k])), k, c)
  {
    var read := s.attempts[k].stage.read.value;
    if c != read.0 && c !in s.attempts[k].stage.unchecked - {read.0} { assert IsClear(s.attempts[k], c); }
  }

  lemma InstallKeepsClear(s: State, k: AttemptId, j: AttemptId, c: ComputerId)
    requires ReservationsInv(s) && ExclusiveInv(s) && Enabled(s, Install(k))
    ensures ClearOk(Apply(s, Install(k)), j, c)
  {
    assert ClearOk(s, j, c);
    if j == k {
      OnlyLookingClears(s, Install(k), c);
    } else {
      StepLeavesOthers(s, Install(k), j);
      if c != s.attempts[k].computer { StepKeepsConnection(s, Install(k), c); }
      else if j in s.attempts && Holds(s.attempts[j].stage) { LiveReservationsDisjoint(s, j, k); }
    }
  }

  lemma InstallKeepsPair(s: State, k: AttemptId, c: ComputerId, d: ComputerId)
    requires ExclusiveInv(s) && Enabled(s, Install(k))
    ensures PairOk(Apply(s, Install(k)), c, d)
  {
    assert PairOk(s, c, d) && ClearOk(s, k, c) && ClearOk(s, k, d);
  }

  lemma StepKeepsClear(s: State, step: Step, k: AttemptId, c: ComputerId)
    requires ReservationsInv(s) && ExclusiveInv(s) && Enabled(s, step)
    ensures ClearOk(Apply(s, step), k, c)
  {
    assert ClearOk(s, k, c);
    if step.Install? {
      InstallKeepsClear(s, step.attempt, k, c);
    } else if Actor(step) == Some(k) {
      if step.Look? { LearntIsClear(s, k, step.look, c); } else { OnlyLookingClears(s, step, c); }
    } else {
      StepLeavesOthers(s, step, k);
      StepKeepsConnection(s, step, c);
    }
  }

  lemma StepKeepsPair(s: State, step: Step, c: ComputerId, d: ComputerId)
    requires ExclusiveInv(s) && Enabled(s, step)
    ensures PairOk(Apply(s, step), c, d)
  {
    assert PairOk(s, c, d);
    if step.Install? {
      InstallKeepsPair(s, step.attempt, c, d);
    } else {
      StepKeepsConnection(s, step, c);
      StepKeepsConnection(s, step, d);
    }
  }

  lemma StepKeepsExclusive(s: State, step: Step)
    requires ReservationsInv(s) && ExclusiveInv(s) && Enabled(s, step)
    ensures ExclusiveInv(Apply(s, step))
  {
    forall c ensures LifecycleOk(Apply(s, step), c) {
      assert LifecycleOk(s, c);
      StepKeepsLifecycle(s, step, c);
    }
    forall k, c ensures ClearOk(Apply(s, step), k, c) { StepKeepsClear(s, step, k, c); }
    forall c, d ensures PairOk(Apply(s, step), c, d) { StepKeepsPair(s, step, c, d); }
  }

  // ---------- What a commit has compared stays so ----------

  /** The record has been compared, and so on. */
  predicate KnowsRecord(p: Progress) {
    p.RecordRead? || p.KeyRead? || p.ProfileRead? || p.Saved?
  }

  predicate KnowsKey(p: Progress) {
    p.KeyRead? || p.ProfileRead? || p.Saved?
  }

  /** The locks an attempt holds. */
  predicate LocksOk(s: State, k: AttemptId) {
    k in s.attempts ==>
      var a := s.attempts[k];
      && (a.stage.Gated? || a.stage.Committing? ==> a.computer in s.gates && s.gates[a.computer] == k)
      && (a.stage.Committing? && a.kind.Manual? ==> s.targetLock == HeldByCommit(k))
  }

  /** Its Computer is still there, and everything it has compared is still what is stored. */
  predicate ComparedOk(s: State, k: AttemptId) {
    k in s.attempts && s.attempts[k].stage.Committing? ==>
      var a, p := s.attempts[k], s.attempts[k].stage.progress;
      && (p != Entered ==> a.computer in s.computers)
      && (KnowsRecord(p) ==> RecordStored(s, a.kind))
      && (KnowsKey(p) ==> KeyStored(s, a.kind))
      && (p == ProfileRead ==> ProfileIs(s, a.computer, a.kind.captured))
      && (p == Saved ==> ProfileIs(s, a.computer, SavedProfile(a.kind)))
  }

  ghost predicate CommitInv(s: State) {
    (forall k :: LocksOk(s, k)) && (forall k :: ComparedOk(s, k))
  }

  lemma CommitKeepsOwnLocks(s: State, k: AttemptId, commit: CommitStep)
    requires LocksOk(s, k) && CommitEnabled(s, k, commit)
    ensures LocksOk(AfterCommit(s, k, commit), k)
  {}

  /** A commit lets go of its own locks only. */
  lemma CommitKeepsOtherLocks(s: State, j: AttemptId, commit: CommitStep, k: AttemptId)
    requires LocksOk(s, j) && LocksOk(s, k) && CommitEnabled(s, j, commit) && j != k
    ensures LocksOk(AfterCommit(s, j, commit), k)
  {
    CommitLeavesOthers(s, j, commit, k);
  }

  lemma EndKeepsOwnLocks(s: State, k: AttemptId, end: EndStep)
    requires EndEnabled(s, k, end)
    ensures LocksOk(AfterEnd(s, k, end), k)
  {}

  lemma EndKeepsLocks(s: State, k: AttemptId, end: EndStep)
    requires EndEnabled(s, k, end)
    ensures AfterEnd(s, k, end).targetLock == s.targetLock && AfterEnd(s, k, end).gates == s.gates
    ensures AfterEnd(s, k, end).catalog == s.catalog
  {}

  lemma LookKeepsLocks(s: State, k: AttemptId, look: LookStep)
    requires LookEnabled(s, k, look)
    ensures AfterLook(s, k, look).targetLock == s.targetLock && AfterLook(s, k, look).gates == s.gates
    ensures AfterLook(s, k, look).catalog == s.catalog
    ensures !AfterLook(s, k, look).attempts[k].stage.Gated? && !AfterLook(s, k, look).attempts[k].stage.Committing?
  {}

  lemma ComputerStepKeepsLocks(s: State, changed: ComputerStep)
    requires ComputerEnabled(s, changed)
    ensures AfterComputer(s, changed).targetLock == s.targetLock && AfterComputer(s, changed).gates == s.gates
    ensures AfterComputer(s, changed).catalog == s.catalog
  {}

  lemma StepKeepsLocks(s: State, step: Step, k: AttemptId)
    requires CommitInv(s) && Enabled(s, step)
    ensures LocksOk(Apply(s, step), k)
  {
    assert LocksOk(s, k);
    if Actor(step) != Some(k) { StepLeavesOthers(s, step, k); }
    match step
    case Commit(j, commit) =>
      assert LocksOk(s, j);
      if j == k { CommitKeepsOwnLocks(s, k, commit); } else { CommitKeepsOtherLocks(s, j, commit, k); }
    case End(j, end) =>
      EndKeepsLocks(s, j, end);
      if j == k { EndKeepsOwnLocks(s, k, end); }
    case Look(j, look) => LookKeepsLocks(s, j, look);
    case ChangeComputer(changed) => ComputerStepKeepsLocks(s, changed);
    case _ =>
  }

  /** The commit's own steps: each comparison adds what it found, and saving changes only the
      profile. */
  lemma CommitKeepsOwnComparisons(s: State, k: AttemptId, commit: CommitStep)
    requires ComparedOk(s, k) && CommitEnabled(s, k, commit)
    ensures ComparedOk(AfterCommit(s, k, commit), k)
  {}

  /** Another commit writes to another Computer's profile: it holds that Computer's gate. */
  lemma CommitKeepsOtherComparisons(s: State, j: AttemptId, commit: CommitStep, k: AttemptId)
    requires LocksOk(s, j) && LocksOk(s, k) && ComparedOk(s, k) && CommitEnabled(s, j, commit) && j != k
    ensures ComparedOk(AfterCommit(s, j, commit), k)
  {
    CommitLeavesOthers(s, j, commit, k);
    CommitWritesOwnProfile(s, j, commit);
  }

  lemma CommitWritesOwnProfile(s: State, k: AttemptId, commit: CommitStep)
    requires CommitEnabled(s, k, commit)
    ensures var s' := AfterCommit(s, k, commit);
      && s'.catalog == s.catalog && s'.computers.Keys == s.computers.Keys
      && (!s.attempts[k].stage.Committing? ==> s'.computers == s.computers)
      && forall c :: c in s.computers && c != s.attempts[k].computer ==> s'.computers[c] == s.computers[c]
  {}

  /** Profiles and Computers that an install or an end of an attempt leaves alone. */
  predicate SameProfiles(s: State, s': State, c: ComputerId) {
    c in s.computers ==> c in s'.computers && s'.computers[c].profile == s.computers[c].profile
  }

  lemma EndKeepsProfiles(s: State, k: AttemptId, end: EndStep, c: ComputerId)
    requires EndEnabled(s, k, end)
    ensures SameProfiles(s, AfterEnd(s, k, end), c)
    ensures k in AfterEnd(s, k, end).attempts ==> !AfterEnd(s, k, end).attempts[k].stage.Committing?
  {}

  /** Edits and removals wait for the gate. */
  lemma ComputerStepKeepsGatedProfiles(s: State, changed: ComputerStep, c: ComputerId)
    requires ComputerEnabled(s, changed) && c in s.gates
    ensures SameProfiles(s, AfterComputer(s, changed), c)
  {}

  /** Changes of the catalog wait for the target lock. */
  lemma CatalogStepWaits(s: State, change: CatalogStep)
    requires s.targetLock.HeldByCommit?
    ensures !CatalogEnabled(s, change)
  {}

  lemma CatalogStepKeepsComparisons(s: State, change: CatalogStep, k: AttemptId)
    requires LocksOk(s, k) && ComparedOk(s, k) && CatalogEnabled(s, change)
    ensures ComparedOk(AfterCatalog(s, change), k)
  {
    if k in s.attempts && s.attempts[k].stage.Committing? && s.attempts[k].kind.Manual? { CatalogStepWaits(s, change); }
  }

  lemma SameStoresKeepComparisons(s: State, s': State, k: AttemptId)
    requires ComparedOk(s, k) && SameAttempt(s, s', k) && s'.catalog == s.catalog
    requires k in s.attempts && s.attempts[k].stage.Committing? ==> SameProfiles(s, s', s.attempts[k].computer)
    ensures ComparedOk(s', k)
  {}

  lemma OthersKeepComparisons(s: State, step: Step, k: AttemptId)
    requires CommitInv(s) && Enabled(s, step) && Actor(step) != Some(k) && !step.ChangeCatalog? && !step.Commit?
    requires k in s.attempts && s.attempts[k].stage.Committing?
    ensures ComparedOk(Apply(s, step), k)
  {
    assert LocksOk(s, k) && ComparedOk(s, k);
    StepLeavesOthers(s, step, k);
    var c := s.attempts[k].computer;
    match step {
      case Look(j, look) =>
        LookKeepsLocks(s, j, look);
        LookKeepsComputers(s, j, look);
      case End(j, end) =>
        EndKeepsLocks(s, j, end);
        EndKeepsProfiles(s, j, end, c);
      case ChangeComputer(changed) =>
        ComputerStepKeepsLocks(s, changed);
        ComputerStepKeepsGatedProfiles(s, changed, c);
      case _ =>
    }
    SameStoresKeepComparisons(s, Apply(s, step), k);
  }

  lemma StepKeepsComparisons(s: State, step: Step, k: AttemptId)
    requires CommitInv(s) && Enabled(s, step)
    ensures ComparedOk(Apply(s, step), k)
  {
    assert LocksOk(s, k) && ComparedOk(s, k);
    if step.Commit? {
      assert LocksOk(s, step.attempt);
      if step.attempt == k { CommitKeepsOwnComparisons(s, k, step.commit); }
      else { CommitKeepsOtherComparisons(s, step.attempt, step.commit, k); }
    } else if step.ChangeCatalog? {
      CatalogStepKeepsComparisons(s, step.change, k);
    } else if Actor(step) == Some(k) {
      OthersDoNotCommit(s, step);
    } else if k in s.attempts && s.attempts[k].stage.Committing? {
      OthersKeepComparisons(s, step, k);
    } else {
      StepLeavesOthers(s, step, k);
    }
  }

  /** Only commit steps lead into a commit. */
  lemma OthersDoNotCommit(s: State, step: Step)
    requires Enabled(s, step) && Actor(step).Some? && !step.Commit?
    ensures var k := Actor(step).value;
      k in Apply(s, step).attempts ==> !Apply(s, step).attempts[k].stage.Committing?
  {
    match step
    case Look(k, look) => LookKeepsLocks(s, k, look);
    case End(k, end) => EndKeepsProfiles(s, k, end, "");
    case _ =>
  }

  lemma StepKeepsCommit(s: State, step: Step)
    requires CommitInv(s) && Enabled(s, step)
    ensures CommitInv(Apply(s, step))
  {
    forall k ensures LocksOk(Apply(s, step), k) { StepKeepsLocks(s, step, k); }
    forall k ensures ComparedOk(Apply(s, step), k) { StepKeepsComparisons(s, step, k); }
  }

  // ---------- Committed targets stay in the catalog ----------

  ghost predicate CommittedTo(s: State, c: ComputerId, target: string) {
    && c in s.computers && s.computers[c].connection.Some?
    && s.computers[c].connection.value.committed
    && s.computers[c].connection.value.made.Manual?
    && s.computers[c].connection.value.made.record.id == target
  }

  /** A connection was made by its attempt, for its Computer. */
  ghost predicate MakerOk(s: State, k: AttemptId, c: ComputerId) {
    k in s.attempts && c in s.computers && s.computers[c].connection.Some?
      && s.computers[c].connection.value.maker == k ==>
      && s.computers[c].connection.value.made == s.attempts[k].kind
      && s.attempts[k].computer == c
  }

  ghost predicate CatalogOk(s: State, c: ComputerId, target: string) {
    CommittedTo(s, c, target) ==>
      && target in s.catalog.records
      && (s.targetLock.HeldByDeletion? && s.targetLock.target == target ==> c in s.targetLock.unlisted)
  }

  ghost predicate CatalogInv(s: State) {
    && (forall k, c :: MakerOk(s, k, c))
    && (forall c, target :: CatalogOk(s, c, target))
  }

  lemma InstallKeepsMaker(s: State, j: AttemptId, k: AttemptId, c: ComputerId)
    requires MakerOk(s, k, c) && Enabled(s, Install(j))
    ensures MakerOk(Apply(s, Install(j)), k, c)
  {}

  lemma BeginKeepsMaker(s: State, step: Step, k: AttemptId, c: ComputerId)
    requires MakerOk(s, k, c) && Enabled(s, step) && (step.BeginManual? || step.BeginManager?)
    ensures MakerOk(Apply(s, step), k, c)
  {}

  lemma StepKeepsMaker(s: State, step: Step, k: AttemptId, c: ComputerId)
    requires MakerOk(s, k, c) && Enabled(s, step)
    ensures MakerOk(Apply(s, step), k, c)
  {
    if step.Install? {
      InstallKeepsMaker(s, step.attempt, k, c);
    } else if step.BeginManual? || step.BeginManager? {
      BeginKeepsMaker(s, step, k, c);
    } else {
      StepKeepsConnection(s, step, c);
      if Actor(step) != Some(k) { StepLeavesOthers(s, step, k); } else { ActorKeepsKind(s, step); }
    }
  }

  lemma ActorKeepsKind(s: State, step: Step)
    requires Enabled(s, step) && Actor(step).Some? && !step.BeginManual? && !step.BeginManager?
    ensures var k := Actor(step).value;
      && k in s.attempts
      && (k in Apply(s, step).attempts ==>
        && Apply(s, step).attempts[k].kind == s.attempts[k].kind
        && Apply(s, step).attempts[k].computer == s.attempts[k].computer)
  {
    match step
    case Look(k, look) => LookKeepsKind(s, k, look);
    case Commit(k, commit) => CommitKeepsHolder(s, k, commit);
    case End(k, end) => EndKeepsKind(s, k, end);
    case _ =>
  }

  lemma LookKeepsKind(s: State, k: AttemptId, look: LookStep)
    requires LookEnabled(s, k, look)
    ensures AfterLook(s, k, look).attempts[k].kind == s.attempts[k].kind
    ensures AfterLook(s, k, look).attempts[k].computer == s.attempts[k].computer
  {}

  lemma EndKeepsKind(s: State, k: AttemptId, end: EndStep)
    requires EndEnabled(s, k, end)
    ensures k in AfterEnd(s, k, end).attempts ==>
      && AfterEnd(s, k, end).attempts[k].kind == s.attempts[k].kind
      && AfterEnd(s, k, end).attempts[k].computer == s.attempts[k].computer
  {}

  /** The last step of a commit. */
  predicate IsApplication(step: Step) {
    step.Commit? && step.commit.ApplyProfile?
  }

  ghost predicate IsCommitted(s: State, c: ComputerId, connection: Connection) {
    Connects(s, c, connection) && connection.committed
  }

  /** Only the last step of a commit makes a connection committed. */
  lemma StepKeepsUncommitted(s: State, step: Step, c: ComputerId, connection: Connection)
    requires Enabled(s, step) && !IsApplication(step) && IsCommitted(Apply(s, step), c, connection)
    ensures IsCommitted(s, c, connection)
  {
    match step
    case Look(k, look) => LookKeepsComputers(s, k, look);
    case Commit(k, commit) => CommitKeepsUncommitted(s, k, commit, c, connection);
    case End(k, end) => EndKeepsUncommitted(s, k, end, c, connection);
    case ChangeComputer(changed) => ComputerStepKeepsUncommitted(s, changed, c, connection);
    case _ =>
  }

  lemma CommitKeepsUncommitted(s: State, k: AttemptId, commit: CommitStep, c: ComputerId, connection: Connection)
    requires CommitEnabled(s, k, commit) && !commit.ApplyProfile?
    requires IsCommitted(AfterCommit(s, k, commit), c, connection)
    ensures IsCommitted(s, c, connection)
  {}

  lemma EndKeepsUncommitted(s: State, k: AttemptId, end: EndStep, c: ComputerId, connection: Connection)
    requires EndEnabled(s, k, end) && IsCommitted(AfterEnd(s, k, end), c, connection)
    ensures IsCommitted(s, c, connection)
  {}

  lemma ComputerStepKeepsUncommitted(s: State, changed: ComputerStep, c: ComputerId, connection: Connection)
    requires ComputerEnabled(s, changed) && IsCommitted(AfterComputer(s, changed), c, connection)
    ensures IsCommitted(s, c, connection)
  {}

  lemma ApplicationCommits(s: State, k: AttemptId, c: ComputerId, connection: Connection)
    requires CommitEnabled(s, k, ApplyProfile) && (forall d :: MakerOk(s, k, d))
    requires IsCommitted(AfterCommit(s, k, ApplyProfile), c, connection)
    ensures IsCommitted(s, c, connection)
      || (connection.maker == k && connection.made == s.attempts[k].kind && c == s.attempts[k].computer)
  {
    assert MakerOk(s, k, c);
  }

  /** The last step of a commit, which holds the target lock, leaves a connection whose target is
      in the catalog, and which no running deletion has passed over. */
  lemma ApplicationKeepsCatalog(s: State, k: AttemptId, c: ComputerId, target: string)
    requires CommitInv(s) && CatalogInv(s) && CommitEnabled(s, k, ApplyProfile)
    ensures CatalogOk(AfterCommit(s, k, ApplyProfile), c, target)
  {
    var s' := AfterCommit(s, k, ApplyProfile);
    assert CatalogOk(s, c, target) && LocksOk(s, k) && ComparedOk(s, k);
    if CommittedTo(s', c, target) { ApplicationCommits(s, k, c, s'.computers[c].connection.value); }
  }

  lemma CatalogStepKeepsCatalog(s: State, change: CatalogStep, c: ComputerId, target: string)
    requires CatalogOk(s, c, target) && CatalogEnabled(s, change)
    ensures CatalogOk(AfterCatalog(s, change), c, target)
  {}

  /** Every step, the separate reads of a deletion included. */
  lemma StepKeepsCatalog(s: State, step: Step, c: ComputerId, target: string)
    requires CommitInv(s) && CatalogInv(s) && Enabled(s, step)
    ensures CatalogOk(Apply(s, step), c, target)
  {
    assert CatalogOk(s, c, target);
    if IsApplication(step) {
      ApplicationKeepsCatalog(s, step.attempt, c, target);
    } else if step.ChangeCatalog? {
      CatalogStepKeepsCatalog(s, step.change, c, target);
    } else if CommittedTo(Apply(s, step), c, target) {
      StepKeepsUncommitted(s, step, c, Apply(s, step).computers[c].connection.value);
      StepKeepsRecords(s, step);
    }
  }

  /** Outside the catalog's own steps, its records stay, and the target lock is taken or let go by
      commits only. */
  lemma StepKeepsRecords(s: State, step: Step)
    requires CommitInv(s) && Enabled(s, step) && !step.ChangeCatalog?
    ensures Apply(s, step).catalog == s.catalog
    ensures Apply(s, step).targetLock.HeldByDeletion? ==> Apply(s, step).targetLock == s.targetLock
  {
    match step
    case Look(k, look) => LookKeepsLocks(s, k, look);
    case End(k, end) => EndKeepsLocks(s, k, end);
    case ChangeComputer(changed) => ComputerStepKeepsLocks(s, changed);
    case Commit(k, commit) =>
      CommitWritesOwnProfile(s, k, commit);
      CommitKeepsDeletion(s, k, commit);
    case _ =>
  }

  lemma CommitKeepsDeletion(s: State, k: AttemptId, commit: CommitStep)
    requires CommitEnabled(s, k, commit)
    ensures var lock := AfterCommit(s, k, commit).targetLock; lock.HeldByDeletion? ==> lock == s.targetLock
  {}

  // ---------- Runs ----------

  ghost predicate Inv(s: State) {
    ReservationsInv(s) && ExclusiveInv(s) && CommitInv(s) && CatalogInv(s)
  }

  ghost predicate Init(s: State) {
    && s.attempts == map[] && s.reservations == map[] && s.targetLock == Free && s.gates == map[] && s.removed == {}
    && forall c :: c in s.computers ==> s.computers[c].connection == None
  }

  lemma StepKeepsInv(s: State, step: Step)
    requires Inv(s) && Enabled(s, step)
    ensures Inv(Apply(s, step))
  {
    StepKeepsReservations(s, step);
    StepKeepsExclusive(s, step);
    StepKeepsCommit(s, step);
    forall k, c ensures MakerOk(Apply(s, step), k, c) {
      assert MakerOk(s, k, c);
      StepKeepsMaker(s, step, k, c);
    }
    forall c, target ensures CatalogOk(Apply(s, step), c, target) { StepKeepsCatalog(s, step, c, target); }
  }

  ghost predicate IsStep(s: State, step: Step, s': State) {
    Enabled(s, step) && s' == Apply(s, step)
  }

  ghost predicate IsRun(states: seq<State>, steps: seq<Step>) {
    && |states| == |steps| + 1
    && Init(states[0])
    && forall i {:trigger steps[i]} :: 0 <= i < |steps| ==> IsStep(states[i], steps[i], states[i + 1])
  }

  lemma InitHasInv(s: State)
    requires Init(s)
    ensures Inv(s)
  {}

  lemma {:induction false} RunKeepsInv(states: seq<State>, steps: seq<Step>, i: nat)
    requires IsRun(states, steps) && i < |states|
    ensures Inv(states[i])
  {
    if i == 0 {
      InitHasInv(states[0]);
    } else {
      RunKeepsInv(states, steps, i - 1);
      assert IsStep(states[i - 1], steps[i - 1], states[i]);
      StepKeepsInv(states[i - 1], steps[i - 1]);
    }
  }

  /** In no run are two Computers ever connected to the same target or the same office. */
  lemma NoDoubleBooking(states: seq<State>, steps: seq<Step>, i: nat, c: ComputerId, d: ComputerId)
    requires IsRun(states, steps) && i < |states| && c != d
    requires c in states[i].computers && states[i].computers[c].connection.Some?
    requires d in states[i].computers && states[i].computers[d].connection.Some?
    ensures var a, b := states[i].computers[c].connection.value.made, states[i].computers[d].connection.value.made;
      TargetOf(a) != TargetOf(b) && OfficeOf(a) != OfficeOf(b)
  {
    RunKeepsInv(states, steps, i);
    assert PairOk(states[i], c, d);
  }

  /** A committed manual connection's target is in the catalog for as long as the connection lasts. */
  lemma CommittedTargetExists(states: seq<State>, steps: seq<Step>, i: nat, c: ComputerId, target: string)
    requires IsRun(states, steps) && i < |states| && CommittedTo(states[i], c, target)
    ensures target in states[i].catalog.records
  {
    RunKeepsInv(states, steps, i);
    assert CatalogOk(states[i], c, target);
  }

  // ---------- What a success means ----------

  /** The last step of a commit, with what is stored at that moment: for a manual target the record
      and the API key the attempt was made with, and the profile it was made with, in which only
      the target itself has been saved. */
  ghost predicate Commits(s: State, step: Step, k: AttemptId, kind: Kind) {
    && step == Commit(k, ApplyProfile) && k in s.attempts && s.attempts[k].kind == kind
    && RecordStored(s, kind) && KeyStored(s, kind)
    && ProfileIs(s, s.attempts[k].computer, SavedProfile(kind))
  }

  /** The check finds the attempt's own Computer, in a blocking state, connected to the wanted
      target. */
  predicate FindsItself(s: State, step: Step, k: AttemptId) {
    && step == Look(k, ReadConnection) && k in s.attempts
    && s.attempts[k].stage.Checking? && s.attempts[k].stage.read == Some((s.attempts[k].computer, true))
    && var c := s.attempts[k].computer;
      && c in s.computers && s.computers[c].connection.Some?
      && TargetOf(s.computers[c].connection.value.made) == TargetOf(s.attempts[k].kind)
  }

  /** A connection blocks in the states in which a runtime can have one, save that a Computer that is
      only started is not blocked by its own. */
  lemma BlocksExactly(l: Lifecycle, same: bool)
    ensures Blocks(l, same) <==> CanBeConnected(l) && !(same && l.Started?)
  {}

  /** What reading one Computer's connection decides. No connection, or one that does not block, or
      another Computer's without a conflict: the check goes on. The own Computer's to the wanted
      target: a manual attempt is done, a Manager's only has its commit left. Anything else, in
      particular the own Computer connected to another target: the attempt clears up. */
  lemma ReadingDecides(s: State, k: AttemptId)
    requires LookEnabled(s, k, ReadConnection)
    ensures var a, s' := s.attempts[k], AfterLook(s, k, ReadConnection);
      var (c, blocks) := a.stage.read.value;
      var stage := s'.attempts[k].stage;
      if c !in s.computers || s.computers[c].connection == None || !blocks
      then stage == Checking(a.stage.unchecked - {c}, None)
      else
        var held := s.computers[c].connection.value.made;
        if c == a.computer
        then stage == (if TargetOf(held) != TargetOf(a.kind) then Clearing
                       else if a.kind.Manual? then Dropping(true) else Ready)
        else stage == (if TargetOf(held) == TargetOf(a.kind) || OfficeOf(held) == OfficeOf(a.kind) then Clearing
                       else Checking(a.stage.unchecked - {c}, None))
  {}

  /** The attempt's own connection is installed. */
  ghost predicate Installs(s: State, step: Step, s': State, k: AttemptId) {
    && step == Install(k) && k in s.attempts && k in s'.attempts
    && Connects(s', s.attempts[k].computer, Connection(s.attempts[k].kind, k, false))
  }

  /** The attempt has what it came for, or is at least past looking for it. */
  predicate IsEquipped(st: Stage) {
    || st.Ready? || st.Gated? || st.Committing?
    || (st.Dropping? && st.succeeded) || (st.Settling? && st.succeeded)
  }

  predicate IsEquippedIn(s: State, k: AttemptId) {
    k in s.attempts && IsEquipped(s.attempts[k].stage)
  }

  lemma LookEquipsByFinding(s: State, k: AttemptId, look: LookStep)
    requires LookEnabled(s, k, look) && IsEquippedIn(AfterLook(s, k, look), k)
    ensures FindsItself(s, Look(k, look), k)
  {
    if look.ReadConnection? { ReadingFinds(s, k); }
  }

  lemma ReadingFinds(s: State, k: AttemptId)
    requires LookEnabled(s, k, ReadConnection) && IsEquippedIn(AfterLook(s, k, ReadConnection), k)
    ensures FindsItself(s, Look(k, ReadConnection), k)
  {
    ReadingDecides(s, k);
    var read := s.attempts[k].stage.read.value;
    assert read == (read.0, read.1);
  }

  lemma CommitKeepsEquipped(s: State, k: AttemptId, commit: CommitStep)
    requires CommitEnabled(s, k, commit)
    ensures IsEquippedIn(s, k)
  {}

  lemma EndKeepsEquipped(s: State, k: AttemptId, end: EndStep)
    requires EndEnabled(s, k, end) && IsEquippedIn(AfterEnd(s, k, end), k)
    ensures IsEquippedIn(s, k)
  {}

  lemma EquippedByStep(s: State, step: Step, k: AttemptId)
    requires Enabled(s, step) && IsEquippedIn(Apply(s, step), k)
    ensures k in s.attempts && s.attempts[k].kind == Apply(s, step).attempts[k].kind
    ensures IsEquippedIn(s, k) || Installs(s, step, Apply(s, step), k) || FindsItself(s, step, k)
  {
    if Actor(step) != Some(k) {
      StepLeavesOthers(s, step, k);
    } else {
      if !step.BeginManual? && !step.BeginManager? { ActorKeepsKind(s, step); }
      match step
      case Look(_, look) => LookEquipsByFinding(s, k, look);
      case Commit(_, commit) => CommitKeepsEquipped(s, k, commit);
      case End(_, end) => EndKeepsEquipped(s, k, end);
      case _ =>
    }
  }

  /** Every attempt that succeeds, manual or a Manager's, installed its own connection, or found its
      own Computer connected to the wanted target. */
  lemma {:induction false} SuccessHasConnection(states: seq<State>, steps: seq<Step>, j: nat, k: AttemptId)
    returns (i: nat)
    requires IsRun(states, steps) && j < |states| && IsEquippedIn(states[j], k)
    ensures i < j && k in states[i].attempts && states[i].attempts[k].kind == states[j].attempts[k].kind
    ensures Installs(states[i], steps[i], states[i + 1], k) || FindsItself(states[i], steps[i], k)
  {
    if j > 0 {
      assert IsStep(states[j - 1], steps[j - 1], states[j]);
      EquippedByStep(states[j - 1], steps[j - 1], k);
      if IsEquippedIn(states[j - 1], k) { i := SuccessHasConnection(states, steps, j - 1, k); } else { i := j - 1; }
    }
  }

  /** The attempt has failed, and is only giving back what it holds. */
  predicate IsDoomed(st: Stage) {
    st.Clearing? || (st.Dropping? && !st.succeeded) || (st.Settling? && !st.succeeded)
  }

  lemma StepKeepsDoom(s: State, step: Step, k: AttemptId)
    requires Enabled(s, step) && k in s.attempts && IsDoomed(s.attempts[k].stage)
    ensures k in Apply(s, step).attempts ==> IsDoomed(Apply(s, step).attempts[k].stage)
  {
    if Actor(step) != Some(k) {
      StepLeavesOthers(s, step, k);
    } else if step.End? {
      EndKeepsDoom(s, k, step.end);
    }
  }

  lemma EndKeepsDoom(s: State, k: AttemptId, end: EndStep)
    requires EndEnabled(s, k, end) && IsDoomed(s.attempts[k].stage)
    ensures k in AfterEnd(s, k, end).attempts ==> IsDoomed(AfterEnd(s, k, end).attempts[k].stage)
  {}

  /** An attempt refused by its check, for as long as it lives, never succeeds: so it is with one whose
      own Computer is connected to another target. */
  lemma {:induction false} RefusedNeverSucceeds(states: seq<State>, steps: seq<Step>, i: nat, j: nat, k: AttemptId)
    requires IsRun(states, steps) && i <= j < |states|
    requires forall m {:trigger states[m]} :: i <= m <= j ==> k in states[m].attempts
    requires IsDoomed(states[i].attempts[k].stage)
    ensures IsDoomed(states[j].attempts[k].stage) && !HasSucceeded(states[j], k)
  {
    if i < j {
      RefusedNeverSucceeds(states, steps, i, j - 1, k);
      assert IsStep(states[j - 1], steps[j - 1], states[j]);
      StepKeepsDoom(states[j - 1], steps[j - 1], k);
    }
  }

  /** The attempt is about to report success. */
  predicate HasSucceeded(s: State, k: AttemptId) {
    k in s.attempts && (s.attempts[k].stage.Dropping? || s.attempts[k].stage.Settling?) && s.attempts[k].stage.succeeded
  }

  /** Everything the commit compared, several steps ago, still holds when it ends: the locks see to
      that. */
  lemma ApplicationIsCommit(s: State, k: AttemptId)
    requires CommitInv(s) && CommitEnabled(s, k, ApplyProfile)
    ensures Commits(s, Commit(k, ApplyProfile), k, s.attempts[k].kind)
  {
    assert ComparedOk(s, k);
  }

  lemma LookSucceedsByFinding(s: State, k: AttemptId, look: LookStep)
    requires LookEnabled(s, k, look) && HasSucceeded(AfterLook(s, k, look), k)
    ensures FindsItself(s, Look(k, look), k) && s.attempts[k].kind.Manual?
  {
    LookEquipsByFinding(s, k, look);
  }

  lemma CommitSucceedsAtItsEnd(s: State, k: AttemptId, commit: CommitStep)
    requires CommitEnabled(s, k, commit) && HasSucceeded(AfterCommit(s, k, commit), k)
    ensures commit == ApplyProfile
  {}

  lemma EndKeepsSuccess(s: State, k: AttemptId, end: EndStep)
    requires EndEnabled(s, k, end) && HasSucceeded(AfterEnd(s, k, end), k)
    ensures HasSucceeded(s, k)
  {}

  /** A committed attempt has left in the profile its own target, and a Manager's its own binding; the
      rest is as it was captured. */
  lemma CommittedProfile(s: State, step: Step, k: AttemptId, kind: Kind)
    requires Commits(s, step, k, kind)
    ensures var stored := s.computers[s.attempts[k].computer].profile;
      && stored.policyTarget == Some(if kind.Manual? then kind.record.id else kind.target)
      && stored.binding == (if kind.Manual? then kind.captured.binding else Some(kind.binding))
      && stored.name == kind.captured.name
  {}

  /** Where the steps of a commit lead when nothing comes between them and none of them is abandoned. */
  function CommittedAlone(s: State, k: AttemptId, steps: seq<CommitStep>): Option<State>
    decreases |steps|
  {
    if steps == [] then Some(s)
    else if !CommitEnabled(s, k, steps[0]) then None
    else CommittedAlone(AfterCommit(s, k, steps[0]), k, steps[1..])
  }

  /** The record and the key are compared for a manual target only. */
  function CommitStepsOf(kind: Kind): seq<CommitStep> {
    [TakeGate, TakeLock, EnsureCurrent] + (if kind.Manual? then [ReadRecord, ReadKey] else [])
    + [ReadProfile, SaveProfile, ApplyProfile]
  }

  /** Everything is as the attempt captured it. */
  predicate AsCaptured(s: State, k: AttemptId)
    requires k in s.attempts
  {
    var a := s.attempts[k];
    IsCurrent(s, k) && RecordStored(s, a.kind) && KeyStored(s, a.kind) && ProfileIs(s, a.computer, a.kind.captured)
  }

  lemma FirstAlone(s: State, k: AttemptId, step: CommitStep, rest: seq<CommitStep>)
    ensures CommittedAlone(s, k, [step] + rest) ==
      if CommitEnabled(s, k, step) then CommittedAlone(AfterCommit(s, k, step), k, rest) else None
  {
    assert ([step] + rest)[1..] == rest;
  }

  function Comparing(s: State, k: AttemptId, progress: Progress): State
    requires k in s.attempts
  {
    Staged(s, k, Committing(progress))
  }

  function Locked(s: State, k: AttemptId): State
    requires k in s.attempts
  {
    s.(gates := s.gates[s.attempts[k].computer := k],
       targetLock := if s.attempts[k].kind.Manual? then HeldByCommit(k) else s.targetLock)
  }

  lemma LockedAlone(s: State, k: AttemptId, rest: seq<CommitStep>)
    requires k in s.attempts && s.attempts[k].stage == Ready && s.attempts[k].computer !in s.gates
    requires s.attempts[k].kind.Manual? ==> s.targetLock == Free
    ensures CommittedAlone(s, k, [TakeGate] + ([TakeLock] + rest))
         == CommittedAlone(Comparing(Locked(s, k), k, Entered), k, rest)
  {
    var gated := AfterCommit(s, k, TakeGate);
    FirstAlone(s, k, TakeGate, [TakeLock] + rest);
    FirstAlone(gated, k, TakeLock, rest);
    assert gated.attempts[k := gated.attempts[k].(stage := Committing(Entered))]
        == s.attempts[k := s.attempts[k].(stage := Committing(Entered))];
  }

  /** The locks are not among what is compared. */
  lemma LockingKeepsCaptured(s: State, k: AttemptId, progress: Progress)
    requires k in s.attempts
    ensures AsCaptured(Comparing(Locked(s, k), k, progress), k) <==> AsCaptured(s, k)
    ensures AsCaptured(Locked(s, k), k) <==> AsCaptured(s, k)
  {}

  /** A comparison that fails ends the commit; one that holds is followed by the next. */
  lemma ComparisonAlone(s: State, k: AttemptId, at: Progress, step: CommitStep, holds: bool, next: Progress,
                        rest: seq<CommitStep>)
    requires k in s.attempts && rest != [] && CommitEnabled(Comparing(s, k, at), k, step)
    requires AfterCommit(Comparing(s, k, at), k, step) == Compared(Comparing(s, k, at), k, holds, next)
    ensures CommittedAlone(Comparing(s, k, at), k, [step] + rest)
         == if holds then CommittedAlone(Comparing(s, k, next), k, rest) else None
  {
    var c := Comparing(s, k, at);
    FirstAlone(c, k, step, rest);
    assert c.attempts[k := c.attempts[k].(stage := Committing(next))]
        == s.attempts[k := s.attempts[k].(stage := Committing(next))];
    if !holds { assert CommittedAlone(Compared(c, k, holds, next), k, rest) == None; }
  }

  function AfterLocking(kind: Kind, rest: seq<CommitStep>): seq<CommitStep> {
    [EnsureCurrent]
    + if kind.Manual? then [ReadRecord] + ([ReadKey] + ([ReadProfile] + rest)) else [ReadProfile] + rest
  }

  lemma ComparedAlone(s: State, k: AttemptId, rest: seq<CommitStep>)
    requires k in s.attempts && rest != []
    ensures CommittedAlone(Comparing(s, k, Entered), k, AfterLocking(s.attempts[k].kind, rest))
      == if AsCaptured(s, k) then CommittedAlone(Comparing(s, k, ProfileRead), k, rest) else None
  {
    var a := s.attempts[k];
    var last := [ReadProfile] + rest;
    var keyed := [ReadKey] + last;
    ComparisonAlone(s, k, Entered, EnsureCurrent, IsCurrent(s, k), FoundCurrent,
                    if a.kind.Manual? then [ReadRecord] + keyed else last);
    if a.kind.Manual? {
      ComparisonAlone(s, k, FoundCurrent, ReadRecord, RecordStored(s, a.kind), RecordRead, keyed);
      ComparisonAlone(s, k, RecordRead, ReadKey, KeyStored(s, a.kind), KeyRead, last);
    }
    ComparisonAlone(s, k, if a.kind.Manual? then KeyRead else FoundCurrent, ReadProfile,
                    ProfileIs(s, a.computer, a.kind.captured), ProfileRead, rest);
  }

  /** What is left once everything was found as captured. */
  lemma AppliedAlone(s: State, k: AttemptId)
    requires k in s.attempts && s.attempts[k].stage == Committing(ProfileRead) && AsCaptured(s, k)
    ensures var t, a := CommittedAlone(s, k, [SaveProfile] + [ApplyProfile]), s.attempts[k];
      && t.Some? && HasSucceeded(t.value, k) && ProfileIs(t.value, a.computer, SavedProfile(a.kind))
      && t.value.gates == s.gates - {a.computer}
      && t.value.targetLock == (if a.kind.Manual? then Free else s.targetLock)
  {
    FirstAlone(s, k, SaveProfile, [ApplyProfile]);
    var saved := AfterCommit(s, k, SaveProfile);
    assert [ApplyProfile] == [ApplyProfile] + [];
    FirstAlone(saved, k, ApplyProfile, []);
  }

  lemma CommitStepsInTurn(kind: Kind)
    ensures CommitStepsOf(kind)
         == [TakeGate] + ([TakeLock] + AfterLocking(kind, [SaveProfile] + [ApplyProfile]))
  {}

  lemma AppliedUnderLocks(s: State, k: AttemptId)
    requires k in s.attempts && s.attempts[k].computer !in s.gates && AsCaptured(s, k)
    requires s.attempts[k].kind.Manual? ==> s.targetLock == Free
    ensures var t := CommittedAlone(Comparing(Locked(s, k), k, ProfileRead), k, [SaveProfile] + [ApplyProfile]);
      && t.Some? && HasSucceeded(t.value, k)
      && ProfileIs(t.value, s.attempts[k].computer, SavedProfile(s.attempts[k].kind))
      && t.value.gates == s.gates && t.value.targetLock == s.targetLock
  {
    LockingKeepsCaptured(s, k, ProfileRead);
    AppliedAlone(Comparing(Locked(s, k), k, ProfileRead), k);
  }

  /** A commit that nothing interrupts succeeds if and only if everything is as the attempt captured it;
      then its profile is stored and its locks are free again. */
  lemma CommitAloneExactly(s: State, k: AttemptId)
    requires k in s.attempts && s.attempts[k].stage == Ready && s.attempts[k].computer !in s.gates
    requires s.attempts[k].kind.Manual? ==> s.targetLock == Free
    ensures var t, a := CommittedAlone(s, k, CommitStepsOf(s.attempts[k].kind)), s.attempts[k];
      && (t.Some? <==> AsCaptured(s, k))
      && (t.Some? ==>
        && HasSucceeded(t.value, k) && ProfileIs(t.value, a.computer, SavedProfile(a.kind))
        && t.value.gates == s.gates && t.value.targetLock == s.targetLock)
  {
    var a := s.attempts[k];
    var last := [SaveProfile] + [ApplyProfile];
    CommitStepsInTurn(a.kind);
    LockedAlone(s, k, AfterLocking(a.kind, last));
    ComparedAlone(Locked(s, k), k, last);
    LockingKeepsCaptured(s, k, ProfileRead);
    if AsCaptured(s, k) { AppliedUnderLocks(s, k); }
  }

  /** An abandoned commit lets go of its locks. Whether its profile had been saved or only compared, a
      restoration that succeeds leaves the one captured when the attempt began. */
  lemma AbandonmentRestores(s: State, k: AttemptId, restored: bool)
    requires CommitInv(s) && CommitEnabled(s, k, AbandonCommit(restored))
    ensures var s', a := AfterCommit(s, k, AbandonCommit(restored)), s.attempts[k];
      && a.computer !in s'.gates && (a.kind.Manual? ==> s'.targetLock == Free)
      && k in s'.attempts && s'.attempts[k] == a.(stage := Clearing)
      && (a.stage.progress == ProfileRead || (a.stage.progress == Saved && restored) ==>
        ProfileIs(s', a.computer, a.kind.captured))
      && forall c :: (c != a.computer || a.stage.progress != Saved || !restored) ==>
        Lookup(s'.computers, c) == Lookup(s.computers, c)
  {
    assert ComparedOk(s, k) && LocksOk(s, k);
  }

  /** What an attempt works with is what is stored when it begins. */
  lemma BeginningCaptures(s: State, k: AttemptId, c: ComputerId, target: string)
    requires Enabled(s, BeginManual(k, c, target))
    ensures var s' := Apply(s, BeginManual(k, c, target));
      && k in s'.attempts && IsCurrent(s', k)
      && var a := s'.attempts[k];
        && a.computer == c && a.stage == Begun && a.kind.Manual?
        && s.catalog.records[target] == a.kind.record && Lookup(s.catalog.keys, target) == a.kind.key
        && ProfileIs(s', c, a.kind.captured) && s'.computers[c].connection == s.computers[c].connection
  {}

  /** Reserving starts the check of every Computer there is, unless some attempt holds the target or the
      office: then nothing is reserved and the attempt fails. */
  lemma ReservingExactly(s: State, k: AttemptId)
    requires LookEnabled(s, k, Reserve)
    ensures var s', a := AfterLook(s, k, Reserve), s.attempts[k];
      k in s'.attempts &&
      if TargetKey(TargetOf(a.kind)) in s.reservations || OfficeKey(OfficeOf(a.kind)) in s.reservations
      then s'.attempts[k].stage == Settling(false) && s'.reservations == s.reservations
      else
        && s'.attempts[k].stage == Checking(s.computers.Keys, None)
        && s'.reservations.Keys
           == s.reservations.Keys + {TargetKey(TargetOf(a.kind)), OfficeKey(OfficeOf(a.kind))}
  {}

  /** An attempt that settles gives its operation back; a failed one leaves no connection. */
  lemma SettlingFrees(s: State, k: AttemptId)
    requires EndEnabled(s, k, Settle) && IsCurrent(s, k)
    ensures var s', c := AfterEnd(s, k, Settle), s.attempts[k].computer;
      && k !in s'.attempts && c in s'.computers && s'.computers[c].operation == None
      && s'.computers[c].profile == s.computers[c].profile
      && s'.computers[c].connection == (if s.attempts[k].stage.succeeded then s.computers[c].connection else None)
  {}

  lemma SucceededByStep(s: State, step: Step, k: AttemptId)
    requires CommitInv(s) && Enabled(s, step) && HasSucceeded(Apply(s, step), k)
    ensures k in s.attempts && s.attempts[k].kind == Apply(s, step).attempts[k].kind
    ensures HasSucceeded(s, k) || Commits(s, step, k, s.attempts[k].kind)
      || (FindsItself(s, step, k) && s.attempts[k].kind.Manual?)
  {
    if Actor(step) != Some(k) {
      StepLeavesOthers(s, step, k);
    } else {
      if !step.BeginManual? && !step.BeginManager? { ActorKeepsKind(s, step); }
      match step
      case Look(_, look) => LookSucceedsByFinding(s, k, look);
      case Commit(_, commit) =>
        CommitSucceedsAtItsEnd(s, k, commit);
        ApplicationIsCommit(s, k);
      case End(_, end) => EndKeepsSuccess(s, k, end);
      case _ =>
    }
  }

  /** Every attempt that succeeds was made with exactly what is stored at the last step of its
      commit, or is a manual one that found its own Computer already connected to the wanted target. */
  lemma {:induction false} SuccessExplained(states: seq<State>, steps: seq<Step>, j: nat, k: AttemptId)
    returns (i: nat)
    requires IsRun(states, steps) && j < |states| && HasSucceeded(states[j], k)
    ensures i < j && k in states[i].attempts && states[i].attempts[k].kind == states[j].attempts[k].kind
    ensures Commits(states[i], steps[i], k, states[j].attempts[k].kind)
      || (FindsItself(states[i], steps[i], k) && states[i].attempts[k].kind.Manual?)
  {
    if j > 0 {
      RunKeepsInv(states, steps, j - 1);
      assert IsStep(states[j - 1], steps[j - 1], states[j]);
      SucceededByStep(states[j - 1], steps[j - 1], k);
      if HasSucceeded(states[j - 1], k) { i := SuccessExplained(states, steps, j - 1, k); } else { i := j - 1; }
    }
  }

  /** An attempt that succeeds without having found itself connected committed. */
  lemma CompletedAsStored(states: seq<State>, steps: seq<Step>, j: nat, k: AttemptId) returns (i: nat)
    requires IsRun(states, steps) && j < |states| && HasSucceeded(states[j], k)
    requires forall m {:trigger steps[m]} :: 0 <= m < j ==> !FindsItself(states[m], steps[m], k)
    ensures i < j && Commits(states[i], steps[i], k, states[j].attempts[k].kind)
  {
    i := SuccessExplained(states, steps, j, k);
  }

  lemma ConnectionCommittedByStep(s: State, step: Step, c: ComputerId, connection: Connection)
    requires Inv(s) && Enabled(s, step) && IsCommitted(Apply(s, step), c, connection)
    ensures IsCommitted(s, c, connection) || Commits(s, step, connection.maker, connection.made)
  {
    if IsApplication(step) {
      ApplicationCommits(s, step.attempt, c, connection);
      ApplicationIsCommit(s, step.attempt);
    } else {
      StepKeepsUncommitted(s, step, c, connection);
    }
  }

  /** What the steps of the catalog do to it: a save stores the record and the key asked for, a deletion
      that ends without a fault removes both, and no other target is touched. */
  lemma CatalogStepsExactly(s: State, change: CatalogStep, id: string)
    requires CatalogEnabled(s, change)
    ensures var end := AfterCatalog(s, change).catalog;
      var record, key := Lookup(end.records, id), Lookup(end.keys, id);
      match change
      case SaveTarget(saved, asked) =>
        if id == saved.id then record == Some(saved) && key == asked
        else record == Lookup(s.catalog.records, id) && key == Lookup(s.catalog.keys, id)
      case EndDeletion(NoFault) =>
        if id == s.targetLock.target then record == None && key == None
        else record == Lookup(s.catalog.records, id) && key == Lookup(s.catalog.keys, id)
      case _ => record == Lookup(s.catalog.records, id)
  {}

  /** Clearing up, while the operation is the attempt's, disconnects its Computer; an attempt drops
      exactly its own keys. */
  lemma ClearingDisconnects(s: State, k: AttemptId)
    requires EndEnabled(s, k, Clear(true)) && IsCurrent(s, k)
    ensures var s', c := AfterEnd(s, k, Clear(true)), s.attempts[k].computer;
      && c in s'.computers && s'.computers[c].connection == None && s'.attempts[k].stage == Dropping(false)
      && forall o :: o != c ==> Lookup(s'.computers, o) == Lookup(s.computers, o)
  {}

  // ---------- Later edits ----------

  /** The step saves another record under the connection's target. */
  predicate Edits(step: Step, kind: Kind) {
    && step.ChangeCatalog? && step.change.SaveTarget? && kind.Manual?
    && step.change.record.id == kind.record.id && step.change.record != kind.record
  }

  lemma StepKeepsRecord(s: State, step: Step, c: ComputerId, connection: Connection)
    requires Inv(s) && Enabled(s, step) && !Edits(step, connection.made) && RecordStored(s, connection.made)
    requires IsCommitted(Apply(s, step), c, connection)
    ensures RecordStored(Apply(s, step), connection.made)
  {
    if !step.ChangeCatalog? {
      StepKeepsRecords(s, step);
    } else if connection.made.Manual? {
      StepKeepsCatalog(s, step, c, connection.made.record.id);
    }
  }

  /** A committed connection, in any state of any run, was made with exactly what was stored when it
      committed, and its record is still the stored one unless another was saved since. */
  lemma {:induction false} CommittedAsStored(states: seq<State>, steps: seq<Step>, j: nat, c: ComputerId,
                                             connection: Connection) returns (i: nat)
    requires IsRun(states, steps) && j < |states| && IsCommitted(states[j], c, connection)
    ensures i < j && Commits(states[i], steps[i], connection.maker, connection.made)
    ensures RecordStored(states[j], connection.made) || exists m :: i < m < j && Edits(steps[m], connection.made)
  {
    if j > 0 {
      var s, step := states[j - 1], steps[j - 1];
      RunKeepsInv(states, steps, j - 1);
      assert IsStep(s, step, states[j]);
      ConnectionCommittedByStep(s, step, c, connection);
      if IsCommitted(s, c, connection) { i := CommittedAsStored(states, steps, j - 1, c, connection); }
      else { i := j - 1; }
      if RecordStored(s, connection.made) && !Edits(step, connection.made) {
        StepKeepsRecord(s, step, c, connection);
      }
    }
  }
}
