/** Manager Context cleanups against Computer duplications, interleaved
    (src-tauri/src/commands/manager.rs, src-tauri/src/commands/computer.rs).

    One step is the code between two points where a task may wait. Locks are explicit: the
    membership lease, and one operation gate per Computer. */
module ContextDeparture {
  import opened Outcomes
  import opened ManagerBindings

  type TaskId = nat

  datatype Owner = CleanupGate(task: TaskId) | DuplicationGate(task: TaskId)

  /** A running cleanup: the Computers of its runtime list it has not dealt with yet, and whether
      it has a diagnostic. */
  datatype Cleanup = Cleanup(context: ContextKey, remaining: set<ComputerId>, failed: bool)

  datatype Stage =
    | Snapshotted                                               // source read, gate released
    | Copying                                                   // profile stored, files being copied
    | Joined                                                    // holds the membership lease
    | Locked                                                    // and the source's gate
    | Refreshed(latest: Profile, departing: seq<ContextKey>)    // read the source and tombstones again
    | Written                                                   // stored the refreshed profile

  datatype Duplication = Duplication(
    source: ComputerId, dest: ComputerId, copyBinding: bool, override: Option<string>,
    stale: Profile, stage: Stage)

  datatype State = State(
    profiles: map<ComputerId, Profile>,
    published: set<ComputerId>,
    used: set<ComputerId>,                    // every id ever given out
    tombstones: set<ContextKey>,
    membership: Option<TaskId>,
    gates: map<ComputerId, Owner>,
    cleanups: map<TaskId, Cleanup>,
    duplications: map<TaskId, Duplication>,
    departed: set<ContextKey>)                // cleaned without a diagnostic, not selected since

  datatype Step =
    | BeginCleanup(task: TaskId, context: ContextKey)
    | TakeGate(task: TaskId, id: ComputerId)
    | CleanOne(task: TaskId, id: ComputerId, diagnostic: bool, persisted: bool)
    | EndCleanup(task: TaskId)
    | Snapshot(task: TaskId, source: ComputerId, dest: ComputerId, copyBinding: bool, override: Option<string>)
    | StoreCopy(task: TaskId)
    | JoinMembership(task: TaskId)
    | LockSource(task: TaskId)
    | Refresh(task: TaskId)
    | WriteRefreshed(task: TaskId)
    | Publish(task: TaskId)
    | FailDuplication(task: TaskId, removed: bool)
    | Edit(id: ComputerId, profile: Profile)
    | Create(id: ComputerId, profile: Profile)
    | Remove(id: ComputerId)
    | Select(context: ContextKey)

  // ---------- The duplicate's profile ----------

  /** The copy made from the first read of the source. */
  function FirstCopy(source: Profile, copyBinding: bool, override: Option<string>): Profile {
    Profile(if override.Some? then Some(ManualSmcp(override.value)) else source.target,
            source.autoConnect,
            if copyBinding then source.binding else None)
  }

  /** The copy after its authority was refreshed from the latest source. */
  function RefreshedCopy(d: Duplication, latest: Profile): Profile {
    var first := FirstCopy(d.stale, d.copyBinding, d.override);
    Profile(if d.override.None? then latest.target else first.target,
            if d.override.None? then latest.autoConnect else first.autoConnect,
            if d.copyBinding then latest.binding else None)
  }

  /** `inherited_manager_contexts`: the target's context, then the binding's if it is another. */
  function Inherited(p: Profile): seq<ContextKey> {
    var targeted := if p.target.Some? && p.target.value.ManagerRobot? then [p.target.value.context] else [];
    if p.binding.Some? && p.binding.value.context.Some? && p.binding.value.context.value !in targeted
    then targeted + [p.binding.value.context.value] else targeted
  }

  function DepartingAmong(cs: seq<ContextKey>, tombstones: set<ContextKey>): (r: seq<ContextKey>)
    ensures forall c :: c in r <==> c in cs && c in tombstones
  {
    if cs == [] then []
    else if cs[0] in tombstones then [cs[0]] + DepartingAmong(cs[1..], tombstones)
    else DepartingAmong(cs[1..], tombstones)
  }

  /** The profile a duplication past its refresh is about to publish. */
  function Outgoing(s: State, task: TaskId): Profile
    requires task in s.duplications && s.duplications[task].stage.Refreshed?
  {
    var d := s.duplications[task];
    AllMadeDormant(RefreshedCopy(d, d.stage.latest), d.stage.departing)
  }

  /** A refreshed copy uses no context its source does not, and none it found departing. */
  lemma RefreshSheds(d: Duplication, latest: Profile, tombstones: set<ContextKey>, c: ContextKey)
    requires !Uses(latest, c) || c in tombstones
    ensures !Uses(AllMadeDormant(RefreshedCopy(d, latest), DepartingAmong(Inherited(latest), tombstones)), c)
  {
    DeparturesEndUse(RefreshedCopy(d, latest), DepartingAmong(Inherited(latest), tombstones));
  }

  // ---------- What the duplicate is ----------

  predicate Departs(t: Option<Target>, tombstones: set<ContextKey>) {
    t.Some? && t.value.ManagerRobot? && t.value.context in tombstones
  }

  /** The duplicate's target: the one asked for, or else the source's. */
  predicate TargetIsCopied(out: Profile, d: Duplication, source: Profile) {
    out.target == if d.override.Some? then Some(ManualSmcp(d.override.value)) else source.target
  }

  /** It auto-connects as the source does, or as it did when a target was asked for, unless its
      target is in a departing context. */
  predicate AutoConnectIsCopied(out: Profile, d: Duplication, source: Profile, tombstones: set<ContextKey>) {
    out.autoConnect <==>
      && (if d.override.Some? then d.stale.autoConnect else source.autoConnect)
      && !Departs(out.target, tombstones)
  }

  /** It has the source's binding, if that was to be copied. A binding for a departing context is
      dormant, and so is the one that stands in for a departing target. */
  predicate BindingIsCopied(out: Profile, d: Duplication, source: Profile, tombstones: set<ContextKey>) {
    var copied := if d.copyBinding then source.binding else None;
    if Departs(out.target, tombstones) then
      && out.binding.Some? && out.binding.value.context == Some(out.target.value.context)
      && out.binding.value.state == Dormant
      && (if copied.Some? && copied.value.context == out.binding.value.context
          then out.binding.value == copied.value.(state := Dormant)
          else out.binding.value == Binding(Some(out.target.value.context), Dormant, out.target.value.employee, None,
                                            out.target.value.account, None, None))
    else if copied.Some? && copied.value.context.Some? && copied.value.context.value in tombstones
    then out.binding == Some(copied.value.(state := Dormant))
    else out.binding == copied
  }

  /** The profile is a duplicate of the source, with the departing contexts taken out of use. */
  predicate IsCopy(out: Profile, d: Duplication, source: Profile, tombstones: set<ContextKey>) {
    && TargetIsCopied(out, d, source)
    && AutoConnectIsCopied(out, d, source, tombstones)
    && BindingIsCopied(out, d, source, tombstones)
  }

  lemma RefreshedIsCopy(d: Duplication, source: Profile, tombstones: set<ContextKey>)
    ensures IsCopy(AllMadeDormant(RefreshedCopy(d, source), DepartingAmong(Inherited(source), tombstones)),
                   d, source, tombstones)
  {
    var inherited, first := Inherited(source), RefreshedCopy(d, source);
    var departing := DepartingAmong(inherited, tombstones);
    DepartingOfTwo(inherited, tombstones);
    MadeDormantInTurn(first, departing);
  }

  lemma MadeDormantInTurn(p: Profile, cs: seq<ContextKey>)
    requires |cs| <= 2
    ensures AllMadeDormant(p, cs) ==
      if cs == [] then p else if |cs| == 1 then MadeDormant(p, cs[0]) else MadeDormant(MadeDormant(p, cs[0]), cs[1])
  {
    if |cs| == 2 {
      assert cs[1..] == [cs[1]] && cs[1..][1..] == [];
      var first := MadeDormant(p, cs[0]);
      assert AllMadeDormant(first, [cs[1]]) == AllMadeDormant(MadeDormant(first, cs[1]), []);
    } else if |cs| == 1 {
      assert cs[1..] == [];
    }
  }

  lemma DepartingOfTwo(cs: seq<ContextKey>, tombstones: set<ContextKey>)
    requires |cs| <= 2
    ensures DepartingAmong(cs, tombstones) ==
      (if |cs| > 0 && cs[0] in tombstones then [cs[0]] else [])
      + (if |cs| == 2 && cs[1] in tombstones then [cs[1]] else [])
  {
    if |cs| > 0 {
      var rest := DepartingAmong(cs[1..], tombstones);
      assert |cs| == 2 ==> cs[1..] == [cs[1]] && cs[1..][1..] == [];
      assert |cs| == 1 ==> cs[1..] == [];
    }
  }

  /** The publication's own code: collects the inherited contexts, keeps those departing, and
      edits the stored copy in place. */
  method RefreshAuthority(candidate: ComputerInstance, d: Duplication, latest: Profile, tombstones: set<ContextKey>)
    requires candidate.View() == FirstCopy(d.stale, d.copyBinding, d.override)
    modifies candidate
    ensures candidate.View()
         == AllMadeDormant(RefreshedCopy(d, latest), DepartingAmong(Inherited(latest), tombstones))
    ensures IsCopy(candidate.View(), d, latest, tombstones)
  {
    RefreshedIsCopy(d, latest, tombstones);
    var inherited := [];
    if latest.target.Some? && latest.target.value.ManagerRobot? {
      inherited := inherited + [latest.target.value.context];
    }
    if latest.binding.Some? && latest.binding.value.context.Some? && latest.binding.value.context.value !in inherited {
      inherited := inherited + [latest.binding.value.context.value];
    }
    if d.override.None? {
      candidate.target, candidate.autoConnect := latest.target, latest.autoConnect;
    }
    candidate.binding := if d.copyBinding then latest.binding else None;
    ShedDeparting(candidate, inherited, tombstones);
  }

  /** Every context of the list that has a tombstone is made dormant, in order. */
  method ShedDeparting(candidate: ComputerInstance, contexts: seq<ContextKey>, tombstones: set<ContextKey>)
    modifies candidate
    ensures candidate.View() == AllMadeDormant(old(candidate.View()), DepartingAmong(contexts, tombstones))
  {
    ghost var goal := AllMadeDormant(candidate.View(), DepartingAmong(contexts, tombstones));
    for i := 0 to |contexts|
      invariant AllMadeDormant(candidate.View(), DepartingAmong(contexts[i..], tombstones)) == goal
    {
      NextDeparting(candidate.View(), contexts, i, tombstones);
      if contexts[i] in tombstones { var changed := candidate.MakeDormant(contexts[i]); }
    }
  }

  lemma NextDeparting(p: Profile, contexts: seq<ContextKey>, i: nat, tombstones: set<ContextKey>)
    requires i < |contexts|
    ensures var next := if contexts[i] in tombstones then MadeDormant(p, contexts[i]) else p;
      AllMadeDormant(p, DepartingAmong(contexts[i..], tombstones))
        == AllMadeDormant(next, DepartingAmong(contexts[i + 1..], tombstones))
  {
    var rest := DepartingAmong(contexts[i + 1..], tombstones);
    assert contexts[i..][0] == contexts[i] && contexts[i..][1..] == contexts[i + 1..];
    assert ([contexts[i]] + rest)[1..] == rest;
  }

  // ---------- Steps ----------

  /** Contexts a command may not take up: those departing, and those gone and not selected. */
  ghost predicate Excluded(s: State, c: ContextKey) {
    c in s.departed || exists k :: k in s.cleanups && s.cleanups[k].context == c
  }

  predicate HoldsLocks(s: State, task: TaskId) {
    && task in s.duplications
    && s.membership == Some(task)
    && s.duplications[task].source in s.gates
    && s.gates[s.duplications[task].source] == DuplicationGate(task)
  }

  ghost predicate Enabled(s: State, step: Step) {
    match step
    case BeginCleanup(k, _) => k !in s.cleanups && s.membership == None
    case TakeGate(k, id) => k in s.cleanups && id in s.cleanups[k].remaining && id !in s.gates
    case CleanOne(k, id, diagnostic, persisted) =>
      && k in s.cleanups && id in s.gates && s.gates[id] == CleanupGate(k) && id in s.cleanups[k].remaining
      && (persisted || diagnostic)
    case EndCleanup(k) =>
      && k in s.cleanups && s.cleanups[k].remaining == {}
      && (s.cleanups[k].failed || s.membership == None)
    case Snapshot(k, source, dest, _, _) =>
      && k !in s.duplications && source in s.published && source in s.profiles && source !in s.gates
      && dest !in s.used
    case StoreCopy(k) => k in s.duplications && s.duplications[k].stage == Snapshotted
    case JoinMembership(k) => k in s.duplications && s.duplications[k].stage == Copying && s.membership == None
    case LockSource(k) =>
      k in s.duplications && s.duplications[k].stage == Joined && s.duplications[k].source !in s.gates
    case Refresh(k) =>
      k in s.duplications && s.duplications[k].stage == Locked && s.duplications[k].source in s.profiles
    case WriteRefreshed(k) => k in s.duplications && s.duplications[k].stage.Refreshed?
    case Publish(k) => k in s.duplications && s.duplications[k].stage == Written
    case FailDuplication(k, _) => k in s.duplications
    case Edit(id, p) =>
      && id in s.published && id in s.profiles && id !in s.gates
      && forall c :: Uses(p, c) ==> Uses(s.profiles[id], c) || !Excluded(s, c)
    case Create(id, p) => id !in s.used && forall c :: Uses(p, c) ==> !Excluded(s, c)
    case Remove(id) => id in s.published && id !in s.gates
    case Select(c) => forall k :: k in s.cleanups ==> s.cleanups[k].context != c
  }

  function Staged(s: State, k: TaskId, stage: Stage): State
    requires k in s.duplications
  {
    s.(duplications := s.duplications[k := s.duplications[k].(stage := stage)])
  }

  /** Everything a duplication holds is let go. */
  function Released(s: State, k: TaskId): State
    requires k in s.duplications
  {
    s.(membership := if s.membership == Some(k) then None else s.membership,
       gates := map id | id in s.gates && s.gates[id] != DuplicationGate(k) :: s.gates[id],
       duplications := s.duplications - {k})
  }

  ghost function Apply(s: State, step: Step): State
    requires Enabled(s, step)
  {
    match step
    case BeginCleanup(k, c) =>
      s.(tombstones := s.tombstones + {c}, cleanups := s.cleanups[k := Cleanup(c, s.published, false)])
    case TakeGate(k, id) => s.(gates := s.gates[id := CleanupGate(k)])
    case CleanOne(k, id, diagnostic, persisted) =>
      var u := s.cleanups[k];
      var current := id in s.published && id in s.profiles;   // the handle is still the Computer's
      var visited := u.(remaining := u.remaining - {id}, failed := u.failed || (current && diagnostic));
      s.(gates := s.gates - {id}, cleanups := s.cleanups[k := visited],
         profiles :=
           if current && persisted then s.profiles[id := MadeDormant(s.profiles[id], u.context)] else s.profiles)
    case EndCleanup(k) =>
      var u := s.cleanups[k];
      var rest := s.(cleanups := s.cleanups - {k});
      if u.failed then rest
      else rest.(tombstones := s.tombstones - {u.context}, departed := s.departed + {u.context})
    case Snapshot(k, source, dest, copyBinding, override) =>
      s.(used := s.used + {dest},
         duplications := s.duplications[k :=
           Duplication(source, dest, copyBinding, override, s.profiles[source], Snapshotted)])
    case StoreCopy(k) =>
      var d := s.duplications[k];
      Staged(s, k, Copying).(profiles := s.profiles[d.dest := FirstCopy(d.stale, d.copyBinding, d.override)])
    case JoinMembership(k) => Staged(s, k, Joined).(membership := Some(k))
    case LockSource(k) =>
      Staged(s, k, Locked).(gates := s.gates[s.duplications[k].source := DuplicationGate(k)])
    case Refresh(k) =>
      var latest := s.profiles[s.duplications[k].source];
      Staged(s, k, Refreshed(latest, DepartingAmong(Inherited(latest), s.tombstones)))
    case WriteRefreshed(k) =>
      Staged(s, k, Written).(profiles := s.profiles[s.duplications[k].dest := Outgoing(s, k)])
    case Publish(k) => Released(s, k).(published := s.published + {s.duplications[k].dest})
    case FailDuplication(k, removed) =>
      Released(s, k).(profiles := if removed then s.profiles - {s.duplications[k].dest} else s.profiles)
    case Edit(id, p) => s.(profiles := s.profiles[id := p])
    case Create(id, p) =>
      s.(used := s.used + {id}, profiles := s.profiles[id := p], published := s.published + {id})
    case Remove(id) => s.(profiles := s.profiles - {id}, published := s.published - {id})
    case Select(c) => s.(departed := s.departed - {c})
  }

  // ---------- What every step keeps ----------

  predicate PastRefresh(d: Duplication) {
    d.stage.Refreshed? || d.stage.Written?
  }

  /** Ids are used once, and a source with a profile is a published Computer. */
  ghost predicate IdsInv(s: State) {
    && s.published <= s.profiles.Keys <= s.used
    && forall k :: IdOk(s, k)
  }

  ghost predicate IdOk(s: State, k: TaskId) {
    k in s.duplications ==>
      && s.duplications[k].dest in s.used && s.duplications[k].dest !in s.published
      && s.duplications[k].source in s.used
      && (s.duplications[k].source in s.profiles ==> s.duplications[k].source in s.published)
  }

  ghost predicate DestinationsInv(s: State) {
    forall k, j :: DestinationOk(s, k, j)
  }

  /** What one duplication creates is neither what another reads nor what another creates. */
  ghost predicate DestinationOk(s: State, k: TaskId, j: TaskId) {
    k in s.duplications && j in s.duplications ==>
      && s.duplications[k].dest != s.duplications[j].source
      && (k != j ==> s.duplications[k].dest != s.duplications[j].dest)
  }

  /** From its last read of the source on, a duplication holds the membership lease and the
      source's gate. */
  ghost predicate LocksInv(s: State) {
    forall k :: k in s.duplications ==>
      && (s.duplications[k].stage == Joined ==> s.membership == Some(k))
      && (s.duplications[k].stage == Locked || PastRefresh(s.duplications[k]) ==> HoldsLocks(s, k))
  }

  ghost predicate StoredInv(s: State) {
    forall k :: StoredOk(s, k)
  }

  ghost predicate StoredOk(s: State, k: TaskId) {
    k in s.duplications && s.duplications[k].stage == Written ==> s.duplications[k].dest in s.profiles
  }

  /** From its last read on, what a duplication is about to publish is a copy of its source as it
      still is. */
  ghost predicate CopyOk(s: State, k: TaskId) {
    k in s.duplications && PastRefresh(s.duplications[k]) ==>
      var d := s.duplications[k];
      && d.source in s.profiles
      && (d.stage.Refreshed? ==>
        && d.stage.latest == s.profiles[d.source]
        && d.stage.departing == DepartingAmong(Inherited(d.stage.latest), s.tombstones))
      && (d.stage.Written? ==>
        d.dest in s.profiles && IsCopy(s.profiles[d.dest], d, s.profiles[d.source], s.tombstones))
  }

  ghost predicate CopiesInv(s: State) {
    forall k :: CopyOk(s, k)
  }

  /** A profile that uses nothing departed, and nothing that an unfailed cleanup is removing. */
  ghost predicate Fit(s: State, p: Profile) {
    && (forall c :: c in s.departed ==> !Uses(p, c))
    && (forall k :: k in s.cleanups && !s.cleanups[k].failed ==> !Uses(p, s.cleanups[k].context))
  }

  /** What a published Computer may still use: nothing departed, and of the departing contexts
      only those whose cleanup has yet to deal with it. */
  ghost predicate Kept(s: State, id: ComputerId, p: Profile) {
    && (forall c :: c in s.departed ==> !Uses(p, c))
    && (forall k :: k in s.cleanups && !s.cleanups[k].failed && Uses(p, s.cleanups[k].context) ==>
      id in s.cleanups[k].remaining)
  }

  ghost predicate PublishedInv(s: State) {
    forall id :: PublishedOk(s, id)
  }

  ghost predicate TombstonesInv(s: State) {
    forall k :: k in s.cleanups ==>
      s.cleanups[k].context in s.tombstones || s.cleanups[k].context in s.departed || s.cleanups[k].failed
  }

  ghost predicate OutgoingInv(s: State) {
    forall k :: OutgoingOk(s, k)
  }

  ghost predicate Inv(s: State) {
    && IdsInv(s) && DestinationsInv(s) && LocksInv(s) && StoredInv(s)
    && TombstonesInv(s) && PublishedInv(s) && OutgoingInv(s) && CopiesInv(s)
  }

  /** No task is running and nothing has departed. */
  ghost predicate Init(s: State) {
    && s.published == s.profiles.Keys && s.profiles.Keys <= s.used
    && s.tombstones == {} && s.membership == None && s.gates == map[]
    && s.cleanups == map[] && s.duplications == map[] && s.departed == {}
  }

  predicate IsCleanup(step: Step) {
    step.BeginCleanup? || step.TakeGate? || step.CleanOne? || step.EndCleanup?
  }

  predicate IsEarlyDuplication(step: Step) {
    step.Snapshot? || step.StoreCopy? || step.JoinMembership? || step.LockSource?
  }

  predicate IsLateDuplication(step: Step) {
    step.Refresh? || step.WriteRefreshed? || step.Publish? || step.FailDuplication?
  }

  predicate IsCommand(step: Step) {
    step.Edit? || step.Create? || step.Remove? || step.Select?
  }

  lemma StepKeepsUse(s: State, step: Step)
    requires IdsInv(s) && DestinationsInv(s) && StoredInv(s) && Enabled(s, step)
    ensures Apply(s, step).published <= Apply(s, step).profiles.Keys <= Apply(s, step).used
  {
    if IsEarlyDuplication(step) || IsLateDuplication(step) {
      assert IdOk(s, step.task) && StoredOk(s, step.task);
    }
  }

  lemma EarlyDuplicationKeepsId(s: State, step: Step, k: TaskId)
    requires IdsInv(s) && DestinationsInv(s) && Enabled(s, step) && IsEarlyDuplication(step)
    ensures IdOk(Apply(s, step), k)
  {
    assert IdOk(s, k);
    if step.task in s.duplications { assert IdOk(s, step.task) && DestinationOk(s, step.task, k); }
  }

  lemma LateDuplicationKeepsId(s: State, step: Step, k: TaskId)
    requires IdsInv(s) && DestinationsInv(s) && Enabled(s, step) && IsLateDuplication(step)
    ensures IdOk(Apply(s, step), k)
  {
    assert IdOk(s, k) && IdOk(s, step.task) && DestinationOk(s, step.task, k) && DestinationOk(s, k, step.task);
  }

  lemma OthersKeepId(s: State, step: Step, k: TaskId)
    requires IdsInv(s) && Enabled(s, step) && (IsCleanup(step) || IsCommand(step))
    ensures IdOk(Apply(s, step), k)
  {
    assert IdOk(s, k);
  }

  lemma StepKeepsIds(s: State, step: Step)
    requires IdsInv(s) && DestinationsInv(s) && StoredInv(s) && Enabled(s, step)
    ensures IdsInv(Apply(s, step))
  {
    StepKeepsUse(s, step);
    forall k ensures IdOk(Apply(s, step), k) {
      if IsCleanup(step) || IsCommand(step) { OthersKeepId(s, step, k); }
      else if IsEarlyDuplication(step) { EarlyDuplicationKeepsId(s, step, k); }
      else { LateDuplicationKeepsId(s, step, k); }
    }
  }

  lemma SnapshotKeepsDestinations(s: State, step: Step, k: TaskId, j: TaskId)
    requires IdsInv(s) && DestinationOk(s, k, j) && Enabled(s, step) && step.Snapshot?
    ensures DestinationOk(Apply(s, step), k, j)
  {
    assert IdOk(s, k) && IdOk(s, j);
  }

  lemma DuplicationKeepsDestinations(s: State, step: Step, k: TaskId, j: TaskId)
    requires DestinationOk(s, k, j) && Enabled(s, step) && !step.Snapshot?
    requires IsEarlyDuplication(step) || IsLateDuplication(step)
    ensures DestinationOk(Apply(s, step), k, j)
  {}

  lemma OthersKeepDestinations(s: State, step: Step, k: TaskId, j: TaskId)
    requires DestinationOk(s, k, j) && Enabled(s, step) && (IsCleanup(step) || IsCommand(step))
    ensures DestinationOk(Apply(s, step), k, j)
  {}

  lemma StepKeepsDestinations(s: State, step: Step)
    requires IdsInv(s) && DestinationsInv(s) && Enabled(s, step)
    ensures DestinationsInv(Apply(s, step))
  {
    forall k, j ensures DestinationOk(Apply(s, step), k, j) {
      assert DestinationOk(s, k, j);
      if step.Snapshot? { SnapshotKeepsDestinations(s, step, k, j); }
      else if IsCleanup(step) || IsCommand(step) { OthersKeepDestinations(s, step, k, j); }
      else { DuplicationKeepsDestinations(s, step, k, j); }
    }
  }

  lemma CleanupKeepsLocks(s: State, step: Step)
    requires LocksInv(s) && Enabled(s, step) && IsCleanup(step)
    ensures LocksInv(Apply(s, step))
  {}

  lemma EarlyDuplicationKeepsLocks(s: State, step: Step)
    requires LocksInv(s) && Enabled(s, step) && IsEarlyDuplication(step)
    ensures LocksInv(Apply(s, step))
  {}

  lemma LateDuplicationKeepsLocks(s: State, step: Step)
    requires LocksInv(s) && Enabled(s, step) && IsLateDuplication(step)
    ensures LocksInv(Apply(s, step))
  {}

  lemma CommandKeepsLocks(s: State, step: Step)
    requires LocksInv(s) && Enabled(s, step) && IsCommand(step)
    ensures LocksInv(Apply(s, step))
  {}

  lemma StepKeepsLocks(s: State, step: Step)
    requires LocksInv(s) && Enabled(s, step)
    ensures LocksInv(Apply(s, step))
  {
    if IsCleanup(step) { CleanupKeepsLocks(s, step); }
    else if IsEarlyDuplication(step) { EarlyDuplicationKeepsLocks(s, step); }
    else if IsLateDuplication(step) { LateDuplicationKeepsLocks(s, step); }
    else { CommandKeepsLocks(s, step); }
  }

  lemma DuplicationKeepsStored(s: State, step: Step, k: TaskId)
    requires DestinationsInv(s) && StoredOk(s, k) && Enabled(s, step)
    requires IsEarlyDuplication(step) || IsLateDuplication(step)
    ensures StoredOk(Apply(s, step), k)
  {
    if k in s.duplications && step.task in s.duplications { assert DestinationOk(s, k, step.task); }
  }

  lemma OthersKeepStored(s: State, step: Step, k: TaskId)
    requires IdOk(s, k) && StoredOk(s, k) && Enabled(s, step) && (IsCleanup(step) || IsCommand(step))
    ensures StoredOk(Apply(s, step), k)
  {}

  lemma StepKeepsStored(s: State, step: Step)
    requires IdsInv(s) && DestinationsInv(s) && StoredInv(s) && Enabled(s, step)
    ensures StoredInv(Apply(s, step))
  {
    forall k ensures StoredOk(Apply(s, step), k) {
      assert IdOk(s, k) && StoredOk(s, k);
      if IsCleanup(step) || IsCommand(step) { OthersKeepStored(s, step, k); }
      else { DuplicationKeepsStored(s, step, k); }
    }
  }

  lemma StepKeepsTombstones(s: State, step: Step)
    requires TombstonesInv(s) && Enabled(s, step)
    ensures TombstonesInv(Apply(s, step))
  {}

  /** The Computer, if published, uses only what it may still use. */
  ghost predicate PublishedOk(s: State, id: ComputerId) {
    id in s.published && id in s.profiles ==> Kept(s, id, s.profiles[id])
  }

  lemma CleanupKeepsPublished(s: State, step: Step, id: ComputerId)
    requires PublishedOk(s, id) && Enabled(s, step) && IsCleanup(step)
    ensures PublishedOk(Apply(s, step), id)
  {
    if step.CleanOne? && id in s.profiles { DepartureEndsUse(s.profiles[id], s.cleanups[step.task].context); }
  }

  lemma DuplicationKeepsPublished(s: State, step: Step, id: ComputerId)
    requires IdsInv(s) && PublishedOk(s, id) && Enabled(s, step)
    requires (IsEarlyDuplication(step) || IsLateDuplication(step)) && !step.Publish?
    ensures PublishedOk(Apply(s, step), id)
  {
    assert IdOk(s, step.task);
  }

  lemma PublicationKeepsPublished(s: State, k: TaskId, id: ComputerId)
    requires OutgoingOk(s, k) && PublishedOk(s, id) && Enabled(s, Publish(k))
    ensures PublishedOk(Apply(s, Publish(k)), id)
  {}

  lemma CommandKeepsPublished(s: State, step: Step, id: ComputerId)
    requires PublishedOk(s, id) && Enabled(s, step) && IsCommand(step)
    ensures PublishedOk(Apply(s, step), id)
  {}

  lemma StepKeepsPublished(s: State, step: Step)
    requires Inv(s) && Enabled(s, step)
    ensures PublishedInv(Apply(s, step))
  {
    forall id ensures PublishedOk(Apply(s, step), id) {
      assert PublishedOk(s, id);
      if IsCleanup(step) {
        CleanupKeepsPublished(s, step, id);
      } else if step.Publish? {
        assert OutgoingOk(s, step.task);
        PublicationKeepsPublished(s, step.task, id);
      } else if IsCommand(step) {
        CommandKeepsPublished(s, step, id);
      } else {
        DuplicationKeepsPublished(s, step, id);
      }
    }
  }

  lemma RefreshIsFit(s: State, k: TaskId)
    requires Inv(s) && Enabled(s, Refresh(k))
    ensures Fit(Apply(s, Refresh(k)), Outgoing(Apply(s, Refresh(k)), k))
  {
    var d := s.duplications[k];
    var latest := s.profiles[d.source];
    assert IdOk(s, k) && PublishedOk(s, d.source);
    var outgoing := AllMadeDormant(RefreshedCopy(d, latest), DepartingAmong(Inherited(latest), s.tombstones));
    forall c | c in s.departed ensures !Uses(outgoing, c) {
      RefreshSheds(d, latest, s.tombstones, c);
    }
    forall j | j in s.cleanups && !s.cleanups[j].failed ensures !Uses(outgoing, s.cleanups[j].context) {
      RefreshSheds(d, latest, s.tombstones, s.cleanups[j].context);
    }
    assert Outgoing(Apply(s, Refresh(k)), k) == outgoing;
  }

  /** What the duplication is about to publish is fit. */
  ghost predicate OutgoingOk(s: State, k: TaskId) {
    k in s.duplications ==>
      && (s.duplications[k].stage.Refreshed? ==> Fit(s, Outgoing(s, k)))
      && (s.duplications[k].stage.Written? && s.duplications[k].dest in s.profiles ==>
        Fit(s, s.profiles[s.duplications[k].dest]))
  }

  lemma CleanupKeepsOutgoing(s: State, step: Step, k: TaskId)
    requires Inv(s) && Enabled(s, step) && IsCleanup(step)
    ensures OutgoingOk(Apply(s, step), k)
  {
    assert OutgoingOk(s, k);
    assert k in s.duplications && PastRefresh(s.duplications[k]) ==> HoldsLocks(s, k);
  }

  lemma CommandKeepsOutgoing(s: State, step: Step, k: TaskId)
    requires Inv(s) && Enabled(s, step) && IsCommand(step)
    ensures OutgoingOk(Apply(s, step), k)
  {
    assert OutgoingOk(s, k);
  }

  lemma EarlyDuplicationKeepsOutgoing(s: State, step: Step, k: TaskId)
    requires IdsInv(s) && DestinationsInv(s) && OutgoingOk(s, k) && Enabled(s, step) && IsEarlyDuplication(step)
    ensures OutgoingOk(Apply(s, step), k)
  {
    assert IdOk(s, k) && DestinationOk(s, k, step.task);
  }

  lemma LateDuplicationKeepsOutgoing(s: State, step: Step, k: TaskId)
    requires Inv(s) && Enabled(s, step) && IsLateDuplication(step)
    ensures OutgoingOk(Apply(s, step), k)
  {
    assert OutgoingOk(s, k);
    if step == Refresh(k) { RefreshIsFit(s, k); } else { OtherDuplicationKeepsOutgoing(s, step, k); }
  }

  lemma OtherDuplicationKeepsOutgoing(s: State, step: Step, k: TaskId)
    requires IdsInv(s) && DestinationsInv(s) && OutgoingOk(s, k)
    requires Enabled(s, step) && IsLateDuplication(step) && step != Refresh(k)
    ensures OutgoingOk(Apply(s, step), k)
  {
    assert IdOk(s, k) && DestinationOk(s, k, step.task);
  }

  lemma StepKeepsOutgoing(s: State, step: Step)
    requires Inv(s) && Enabled(s, step)
    ensures OutgoingInv(Apply(s, step))
  {
    forall k ensures OutgoingOk(Apply(s, step), k) {
      if IsCleanup(step) { CleanupKeepsOutgoing(s, step, k); }
      else if IsCommand(step) { CommandKeepsOutgoing(s, step, k); }
      else if IsLateDuplication(step) { LateDuplicationKeepsOutgoing(s, step, k); }
      else {
        assert OutgoingOk(s, k);
        EarlyDuplicationKeepsOutgoing(s, step, k);
      }
    }
  }

  /** Under the membership lease no tombstone comes or goes, and under the source's gate its profile
      stays. */
  lemma CleanupKeepsCopy(s: State, step: Step, k: TaskId)
    requires LocksInv(s) && CopyOk(s, k) && IdOk(s, k) && Enabled(s, step) && IsCleanup(step)
    ensures CopyOk(Apply(s, step), k)
  {
    assert k in s.duplications && PastRefresh(s.duplications[k]) ==> HoldsLocks(s, k);
  }

  lemma CommandKeepsCopy(s: State, step: Step, k: TaskId)
    requires LocksInv(s) && CopyOk(s, k) && IdOk(s, k) && Enabled(s, step) && IsCommand(step)
    ensures CopyOk(Apply(s, step), k)
  {
    assert k in s.duplications && PastRefresh(s.duplications[k]) ==> HoldsLocks(s, k);
  }

  lemma RefreshMakesCopy(s: State, k: TaskId)
    requires Enabled(s, Refresh(k))
    ensures CopyOk(Apply(s, Refresh(k)), k)
  {}

  lemma WritingMakesCopy(s: State, k: TaskId)
    requires CopyOk(s, k) && DestinationOk(s, k, k) && Enabled(s, WriteRefreshed(k))
    ensures CopyOk(Apply(s, WriteRefreshed(k)), k)
  {
    var d := s.duplications[k];
    RefreshedIsCopy(d, d.stage.latest, s.tombstones);
  }

  lemma OtherDuplicationKeepsCopy(s: State, step: Step, k: TaskId)
    requires DestinationsInv(s) && CopyOk(s, k) && Enabled(s, step)
    requires (IsEarlyDuplication(step) || IsLateDuplication(step)) && step.task != k
    ensures CopyOk(Apply(s, step), k)
  {
    if k in s.duplications && step.task in s.duplications {
      assert DestinationOk(s, step.task, k) && DestinationOk(s, k, step.task);
    }
  }

  lemma StepKeepsCopies(s: State, step: Step)
    requires Inv(s) && Enabled(s, step)
    ensures CopiesInv(Apply(s, step))
  {
    forall k ensures CopyOk(Apply(s, step), k) {
      assert CopyOk(s, k) && IdOk(s, k) && DestinationOk(s, k, k);
      if IsCleanup(step) { CleanupKeepsCopy(s, step, k); }
      else if IsCommand(step) { CommandKeepsCopy(s, step, k); }
      else if step.task != k { OtherDuplicationKeepsCopy(s, step, k); }
      else if step.Refresh? { RefreshMakesCopy(s, k); }
      else if step.WriteRefreshed? { WritingMakesCopy(s, k); }
    }
  }

  lemma StepKeepsInv(s: State, step: Step)
    requires Inv(s) && Enabled(s, step)
    ensures Inv(Apply(s, step))
  {
    StepKeepsIds(s, step);
    StepKeepsDestinations(s, step);
    StepKeepsLocks(s, step);
    StepKeepsStored(s, step);
    StepKeepsTombstones(s, step);
    StepKeepsPublished(s, step);
    StepKeepsOutgoing(s, step);
    StepKeepsCopies(s, step);
  }

  /** A cleanup marks its context and takes every published Computer; one that ends without a diagnostic
      unmarks it, and one with a diagnostic leaves the mark. */
  lemma CleanupMarksExactly(s: State, k: TaskId, c: ContextKey)
    ensures Enabled(s, BeginCleanup(k, c)) ==>
      var s' := Apply(s, BeginCleanup(k, c));
      && s'.tombstones == s.tombstones + {c} && s'.profiles == s.profiles
      && k in s'.cleanups && s'.cleanups[k] == Cleanup(c, s.published, false)
    ensures Enabled(s, EndCleanup(k)) ==>
      var s' := Apply(s, EndCleanup(k));
      && k !in s'.cleanups && s'.profiles == s.profiles
      && s'.tombstones == if s.cleanups[k].failed then s.tombstones else s.tombstones - {s.cleanups[k].context}
  {}

  /** A visit changes its own Computer's profile only, and that only to the one without the context. */
  lemma VisitTouchesOneProfile(s: State, k: TaskId, id: ComputerId, diagnostic: bool, persisted: bool, o: ComputerId)
    requires Enabled(s, CleanOne(k, id, diagnostic, persisted)) && o in s.profiles
    ensures var s' := Apply(s, CleanOne(k, id, diagnostic, persisted));
      && s'.profiles.Keys == s.profiles.Keys
      && (o != id || id !in s.published || !persisted ==> s'.profiles[o] == s.profiles[o])
      && (o == id && id in s.published && persisted ==>
        s'.profiles[o] == MadeDormant(s.profiles[o], s.cleanups[k].context))
      && k in s'.cleanups && (id in s.published && id in s.profiles && diagnostic ==> s'.cleanups[k].failed)
  {}

  // ---------- Whole runs ----------

  ghost predicate IsStep(s: State, step: Step, s': State) {
    Enabled(s, step) && s' == Apply(s, step)
  }

  ghost predicate IsRun(states: seq<State>, steps: seq<Step>) {
    && |states| == |steps| + 1
    && Init(states[0])
    && forall i {:trigger steps[i]} :: 0 <= i < |steps| ==> IsStep(states[i], steps[i], states[i + 1])
  }

  lemma {:induction false} RunKeepsInv(states: seq<State>, steps: seq<Step>, n: nat)
    requires IsRun(states, steps) && n < |states|
    ensures Inv(states[n])
  {
    if n > 0 {
      RunKeepsInv(states, steps, n - 1);
      StepKeepsInv(states[n - 1], steps[n - 1]);
    }
  }

  /** The step ends a cleanup of `c` that had no diagnostic. */
  predicate EndsCleanupOf(s: State, step: Step, c: ContextKey) {
    step.EndCleanup? && step.task in s.cleanups && !s.cleanups[step.task].failed && s.cleanups[step.task].context == c
  }

  lemma {:induction false} DepartedUntilSelected(states: seq<State>, steps: seq<Step>, i: nat, j: nat, c: ContextKey)
    requires IsRun(states, steps) && i < j < |states|
    requires EndsCleanupOf(states[i], steps[i], c)
    requires forall m :: i < m < j ==> steps[m] != Select(c)
    ensures c in states[j].departed
  {
    if i + 1 < j {
      DepartedUntilSelected(states, steps, i, j - 1, c);
      assert states[j] == Apply(states[j - 1], steps[j - 1]);
    }
  }

  /** In every interleaving of cleanups, duplications and other commands: from the end of a
      cleanup without diagnostics until the Context is selected again, no published Computer has
      an active binding for it or auto-connects to a target in it. */
  lemma NoAuthorityAfterCleanup(states: seq<State>, steps: seq<Step>, i: nat, j: nat, c: ContextKey, id: ComputerId)
    requires IsRun(states, steps) && i < j < |states|
    requires EndsCleanupOf(states[i], steps[i], c)
    requires forall m :: i < m < j ==> steps[m] != Select(c)
    requires id in states[j].published
    ensures id in states[j].profiles && !Bound(states[j].profiles[id], c) && !AutoConnects(states[j].profiles[id], c)
  {
    DepartedUntilSelected(states, steps, i, j, c);
    RunKeepsInv(states, steps, j);
    assert PublishedOk(states[j], id);
  }

  /** What a duplication publishes, in any run, is a copy of its source as it is at that moment: its
      policy, or the target asked for, and its binding if asked for, with nothing lost. */
  lemma PublicationIsCopy(states: seq<State>, steps: seq<Step>, i: nat, k: TaskId)
    requires IsRun(states, steps) && i < |steps| && steps[i] == Publish(k)
    ensures var s, d := states[i], states[i].duplications[k];
      && d.dest in states[i + 1].published && d.dest in states[i + 1].profiles && d.source in s.profiles
      && IsCopy(states[i + 1].profiles[d.dest], d, s.profiles[d.source], s.tombstones)
  {
    RunKeepsInv(states, steps, i);
    assert CopyOk(states[i], k) && IsStep(states[i], steps[i], states[i + 1]);
  }
}
