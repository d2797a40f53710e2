/** A run in which a manual connect reports success although its Computer's connection was made
    with a record that is no longer the stored one: the second connect of a Computer that is
    already connected to the target compares nothing but the target's id. */
module ConnectionExample {
  import opened Outcomes
  import opened ConnectionReservations
  import opened ConnectionTargets
  import opened ConnectionRuns

  const BEFORE: Target := Target("t", "o", "old endpoint")
  const AFTER: Target := Target("t", "o", "new endpoint")
  const CAPTURED: Profile := Profile("n", None, None)
  const KIND: Kind := Manual(BEFORE, None, CAPTURED)

  /** One target, and one Computer with at most one attempt. */
  function One(record: Target, computer: Computer, stage: Option<Stage>, lock: TargetLock, gated: bool): State {
    var held := stage.Some? && Holds(stage.value);
    State(Catalog(map["t" := record], map[]), map["a" := computer], {},
          if held then ReservedMap(map[], Keys("t", "o"), "a") else map[],
          if stage.Some? then map[0 := Attempt("a", KIND, stage.value)] else map[],
          lock, if gated then map["a" := 0] else map[])
  }

  const IDLE: Computer := Computer(CAPTURED, Started, None, None)
  const BUSY: Computer := IDLE.(operation := Some(0))
  const JOINED: Computer := BUSY.(lifecycle := JoinedOffice, connection := Some(Connection(KIND, 0, false)))
  const SAVED: Computer := JOINED.(profile := SavedProfile(KIND))
  const COMMITTED: Computer := SAVED.(connection := Some(Connection(KIND, 0, true)))
  const SETTLED: Computer := COMMITTED.(operation := None)

  function Looking(unchecked: set<ComputerId>, read: Option<(ComputerId, bool)>): State {
    One(BEFORE, BUSY, Some(Checking(unchecked, read)), Free, false)
  }

  function Inside(computer: Computer, progress: Progress): State {
    One(BEFORE, computer, Some(Committing(progress)), HeldByCommit(0), true)
  }

  lemma Replaced<K, V>(k: K, v: V, w: V)
    ensures map[k := v][k := w] == map[k := w] && map[k := v] - {k} == map[]
  {}

  lemma BeginStep()
    ensures IsStep(One(BEFORE, IDLE, None, Free, false), BeginManual(0, "a", "t"),
                   One(BEFORE, BUSY, Some(Begun), Free, false))
  {}

  lemma ReserveStep()
    ensures IsStep(One(BEFORE, BUSY, Some(Begun), Free, false), Look(0, Reserve),
                   Looking({"a"}, None))
  {
    assert map["a" := BUSY].Keys == {"a"};
  }

  lemma ReadLifecycleStep()
    ensures IsStep(Looking({"a"}, None), Look(0, ReadLifecycle("a")),
                   Looking({"a"}, Some(("a", false))))
  {}

  lemma ReadConnectionStep()
    ensures IsStep(Looking({"a"}, Some(("a", false))), Look(0, ReadConnection),
                   Looking({}, None))
  {
    assert {"a"} - {"a"} == {};
  }

  lemma EndCheckStep()
    ensures IsStep(Looking({}, None), Look(0, EndCheck),
                   One(BEFORE, BUSY, Some(Checked), Free, false))
  {}

  lemma InstallStep()
    ensures IsStep(One(BEFORE, BUSY, Some(Checked), Free, false), Install(0),
                   One(BEFORE, JOINED, Some(Ready), Free, false))
  {}

  lemma TakeGateStep()
    ensures IsStep(One(BEFORE, JOINED, Some(Ready), Free, false), Commit(0, TakeGate),
                   One(BEFORE, JOINED, Some(Gated), Free, true))
  {}

  lemma TakeLockStep()
    ensures IsStep(One(BEFORE, JOINED, Some(Gated), Free, true), Commit(0, TakeLock),
                   Inside(JOINED, Entered))
  {}

  lemma EnsureCurrentStep()
    ensures IsStep(Inside(JOINED, Entered), Commit(0, EnsureCurrent),
                   Inside(JOINED, FoundCurrent))
  {}

  lemma ReadRecordStep()
    ensures IsStep(Inside(JOINED, FoundCurrent), Commit(0, ReadRecord),
                   Inside(JOINED, RecordRead))
  {}

  lemma ReadKeyStep()
    ensures IsStep(Inside(JOINED, RecordRead), Commit(0, ReadKey),
                   Inside(JOINED, KeyRead))
  {}

  lemma ReadProfileStep()
    ensures IsStep(Inside(JOINED, KeyRead), Commit(0, ReadProfile),
                   Inside(JOINED, ProfileRead))
  {}

  lemma SaveProfileStep()
    ensures IsStep(Inside(JOINED, ProfileRead), Commit(0, SaveProfile),
                   Inside(SAVED, Saved))
  {
    Replaced("a", JOINED, SAVED);
    Replaced(0, Attempt("a", KIND, Committing(ProfileRead)), Attempt("a", KIND, Committing(Saved)));
  }

  lemma ApplyProfileStep()
    ensures IsStep(Inside(SAVED, Saved), Commit(0, ApplyProfile),
                   One(BEFORE, COMMITTED, Some(Dropping(true)), Free, false))
  {
    Replaced("a", SAVED, COMMITTED);
    Replaced(0, Attempt("a", KIND, Committing(Saved)), Attempt("a", KIND, Dropping(true)));
  }

  lemma DropStep()
    ensures IsStep(One(BEFORE, COMMITTED, Some(Dropping(true)), Free, false), End(0, Drop),
                   One(BEFORE, COMMITTED, Some(Settling(true)), Free, false))
  {}

  lemma SettleStep()
    ensures IsStep(One(BEFORE, COMMITTED, Some(Settling(true)), Free, false), End(0, Settle),
                   One(BEFORE, SETTLED, None, Free, false))
  {}

  lemma EditStep()
    ensures IsStep(One(BEFORE, SETTLED, None, Free, false), ChangeCatalog(SaveTarget(AFTER, None)),
                   One(AFTER, SETTLED, None, Free, false))
  {}

  lemma FindAgainStep()
    ensures IsStep(One(AFTER, SETTLED, None, Free, false), FindConnected("a", "t"),
                   One(AFTER, SETTLED, None, Free, false))
  {}

  /** One more step of a run. */
  lemma Grow(states: seq<State>, steps: seq<Step>, step: Step, s': State)
    returns (states': seq<State>, steps': seq<Step>)
    requires IsRun(states, steps) && IsStep(states[|states| - 1], step, s')
    ensures IsRun(states', steps') && states'[|states'| - 1] == s' && |steps'| > 0 && steps'[|steps'| - 1] == step
  {
    states', steps' := states + [s'], steps + [step];
  }

  lemma Connecting() returns (states: seq<State>, steps: seq<Step>)
    ensures IsRun(states, steps) && states[|states| - 1] == One(BEFORE, JOINED, Some(Ready), Free, false)
  {
    states, steps := [One(BEFORE, IDLE, None, Free, false)], [];
    BeginStep();
    states, steps := Grow(states, steps, BeginManual(0, "a", "t"), One(BEFORE, BUSY, Some(Begun), Free, false));
    ReserveStep();
    states, steps := Grow(states, steps, Look(0, Reserve), Looking({"a"}, None));
    ReadLifecycleStep();
    states, steps := Grow(states, steps, Look(0, ReadLifecycle("a")), Looking({"a"}, Some(("a", false))));
    ReadConnectionStep();
    states, steps := Grow(states, steps, Look(0, ReadConnection), Looking({}, None));
    EndCheckStep();
    states, steps := Grow(states, steps, Look(0, EndCheck), One(BEFORE, BUSY, Some(Checked), Free, false));
    InstallStep();
    states, steps := Grow(states, steps, Install(0), One(BEFORE, JOINED, Some(Ready), Free, false));
  }

  lemma CommittingRun(before: seq<State>, done: seq<Step>) returns (states: seq<State>, steps: seq<Step>)
    requires IsRun(before, done) && before[|before| - 1] == One(BEFORE, JOINED, Some(Ready), Free, false)
    ensures IsRun(states, steps) && states[|states| - 1] == Inside(JOINED, ProfileRead)
  {
    states, steps := before, done;
    TakeGateStep();
    states, steps := Grow(states, steps, Commit(0, TakeGate), One(BEFORE, JOINED, Some(Gated), Free, true));
    TakeLockStep();
    states, steps := Grow(states, steps, Commit(0, TakeLock), Inside(JOINED, Entered));
    EnsureCurrentStep();
    states, steps := Grow(states, steps, Commit(0, EnsureCurrent), Inside(JOINED, FoundCurrent));
    ReadRecordStep();
    states, steps := Grow(states, steps, Commit(0, ReadRecord), Inside(JOINED, RecordRead));
    ReadKeyStep();
    states, steps := Grow(states, steps, Commit(0, ReadKey), Inside(JOINED, KeyRead));
    ReadProfileStep();
    states, steps := Grow(states, steps, Commit(0, ReadProfile), Inside(JOINED, ProfileRead));
  }

  lemma SettlingRun(before: seq<State>, done: seq<Step>) returns (states: seq<State>, steps: seq<Step>)
    requires IsRun(before, done) && before[|before| - 1] == Inside(JOINED, ProfileRead)
    ensures IsRun(states, steps) && states[|states| - 1] == One(BEFORE, SETTLED, None, Free, false)
  {
    states, steps := before, done;
    SaveProfileStep();
    states, steps := Grow(states, steps, Commit(0, SaveProfile), Inside(SAVED, Saved));
    ApplyProfileStep();
    states, steps := Grow(states, steps, Commit(0, ApplyProfile),
                          One(BEFORE, COMMITTED, Some(Dropping(true)), Free, false));
    DropStep();
    states, steps := Grow(states, steps, End(0, Drop), One(BEFORE, COMMITTED, Some(Settling(true)), Free, false));
    SettleStep();
    states, steps := Grow(states, steps, End(0, Settle), One(BEFORE, SETTLED, None, Free, false));
  }

  /** The run: connect, edit the target, connect again. The last connect reports success, on a
      connection that is committed and was not made with the stored record. */
  lemma SuccessOnEditedTarget() returns (states: seq<State>, steps: seq<Step>)
    ensures IsRun(states, steps) && |steps| > 0 && steps[|steps| - 1] == FindConnected("a", "t")
    ensures IsCommitted(states[|states| - 1], "a", Connection(KIND, 0, true))
    ensures !RecordStored(states[|states| - 1], KIND)
  {
    states, steps := Connecting();
    states, steps := CommittingRun(states, steps);
    states, steps := SettlingRun(states, steps);
    EditStep();
    states, steps := Grow(states, steps, ChangeCatalog(SaveTarget(AFTER, None)),
                          One(AFTER, SETTLED, None, Free, false));
    FindAgainStep();
    states, steps := Grow(states, steps, FindConnected("a", "t"), One(AFTER, SETTLED, None, Free, false));
  }
}
