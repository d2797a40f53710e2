/** Deleting a Computer (src-tauri/src/commands/computer.rs 760-972 and 1852-1931): input values and
    secrets are deleted one by one, the storage directory is set aside, the profile removed and the
    runtime's removal committed. Whichever of these fails is undone by compensations, which can
    fail themselves. A write that fails may still have landed. */
module ComputerDeletion {
  import opened Outcomes

  type Profile = string

  type Values = map<string, string>

  type Entries = map<string, bool>

  /** The storage directory: input entries (true for a secret), the plain values file, and the
      SDK's files. */
  datatype Storage = Storage(entries: Entries, values: Values, rest: string)

  datatype InputSnapshot =
    | Plain(id: string, value: Option<string>)
    | Secret(id: string, value: Option<string>)

  datatype Failure = Undone | NotUndone

  function ValuesOf(s: Option<Storage>): Values {
    if s.Some? then s.value.values else map[]
  }

  function WithValues(s: Option<Storage>, values: Values): Option<Storage> {
    if s.Some? then Some(s.value.(values := values)) else Some(Storage(map[], values, ""))
  }

  function EntriesOf(s: Option<Storage>): Entries {
    if s.Some? then s.value.entries else map[]
  }

  /** Every value that no entry owns becomes a plain entry. */
  function Adopted(s: Option<Storage>): Option<Storage> {
    if s.None? then None
    else
      var e := s.value.entries;
      Some(s.value.(entries := map k | k in e.Keys + s.value.values.Keys :: if k in e then e[k] else false))
  }

  /** Values and SDK files are as before, every entry is kept, and each value without one has become
      a plain one. */
  ghost predicate IsAdopted(before: Option<Storage>, after: Option<Storage>) {
    && (after.Some? <==> before.Some?)
    && (before.Some? ==>
      && after.value.values == before.value.values && after.value.rest == before.value.rest
      && after.value.entries.Keys == before.value.entries.Keys + before.value.values.Keys
      && (forall k :: k in before.value.entries ==> after.value.entries[k] == before.value.entries[k])
      && (forall k :: k in before.value.values && k !in before.value.entries ==> !after.value.entries[k]))
  }

  lemma AdoptionKeeps(s: Option<Storage>)
    ensures IsAdopted(s, Adopted(s))
  {}

  ghost predicate Names(snapshots: seq<InputSnapshot>, id: string, secret: bool) {
    exists i :: 0 <= i < |snapshots| && snapshots[i].id == id && snapshots[i].Secret? == secret
  }

  /** One snapshot for every entry, of what its store holds. */
  ghost predicate SnapshotsOf(snapshots: seq<InputSnapshot>, entries: Entries, s: Option<Storage>, secrets: Values) {
    && (forall k :: k in entries ==> Names(snapshots, k, entries[k]))
    && (forall i :: 0 <= i < |snapshots| ==>
      && snapshots[i].id in entries && entries[snapshots[i].id] == snapshots[i].Secret?
      && snapshots[i].value == Lookup(if snapshots[i].Secret? then secrets else ValuesOf(s), snapshots[i].id))
  }

  /** The secrets that no entry names. */
  function WithoutSecrets(secrets: Values, entries: Entries): Values {
    map k | k in secrets && !(k in entries && entries[k]) :: secrets[k]
  }

  /** Of the secrets, exactly those that no entry names as secret are left, as they were. */
  ghost predicate OnlyUnnamed(before: Values, after: Values, entries: Entries) {
    && (forall k :: k in after <==> k in before && !(k in entries && entries[k]))
    && (forall k :: k in after ==> after[k] == before[k])
  }

  /** The two maps agree on every key that no snapshot of the kind names. */
  ghost predicate Agree(a: Values, b: Values, snapshots: seq<InputSnapshot>, secret: bool) {
    forall k :: Lookup(a, k) == Lookup(b, k) || Names(snapshots, k, secret)
  }

  /** The first `n` snapshots are what the map holds. */
  ghost predicate Holds(m: Values, snapshots: seq<InputSnapshot>, n: nat, secret: bool)
    requires n <= |snapshots|
  {
    forall i :: 0 <= i < n && snapshots[i].Secret? == secret ==> Lookup(m, snapshots[i].id) == snapshots[i].value
  }

  ghost predicate Gone(m: Values, snapshots: seq<InputSnapshot>, n: nat, secret: bool)
    requires n <= |snapshots|
  {
    forall i :: 0 <= i < n && snapshots[i].Secret? == secret ==> snapshots[i].id !in m
  }

  /** One id of one kind has one value. */
  ghost predicate Consistent(snapshots: seq<InputSnapshot>) {
    forall i, j :: 0 <= i < |snapshots| && 0 <= j < |snapshots|
      && snapshots[i].id == snapshots[j].id && snapshots[i].Secret? == snapshots[j].Secret?
      ==> snapshots[i] == snapshots[j]
  }

  lemma SnapshotsGrow(snapshots: seq<InputSnapshot>, taken: InputSnapshot, entries: Entries, s: Option<Storage>,
                      secrets: Values)
    requires SnapshotsOf(snapshots, entries, s, secrets) && taken.id !in entries
    requires taken.value == Lookup(if taken.Secret? then secrets else ValuesOf(s), taken.id)
    ensures SnapshotsOf(snapshots + [taken], entries[taken.id := taken.Secret?], s, secrets)
  {
    forall k | k in entries ensures Names(snapshots + [taken], k, entries[k]) {
      assert Names(snapshots, k, entries[k]);
      var i :| 0 <= i < |snapshots| && snapshots[i].id == k && snapshots[i].Secret? == entries[k];
      assert (snapshots + [taken])[i] == snapshots[i];
    }
    assert (snapshots + [taken])[|snapshots|] == taken;
  }

  /** Deleting everything that is named leaves exactly what is not. */
  lemma DeletedIsWithout(before: Values, now: Values, snapshots: seq<InputSnapshot>,
                         entries: Entries, s: Option<Storage>, secrets: Values)
    requires SnapshotsOf(snapshots, entries, s, secrets)
    requires Agree(before, now, snapshots, true) && Gone(now, snapshots, |snapshots|, true)
    ensures now == WithoutSecrets(before, entries)
  {
    forall k ensures Lookup(now, k) == Lookup(WithoutSecrets(before, entries), k) {
      if k in entries && entries[k] { assert Names(snapshots, k, true); }
      if Names(snapshots, k, true) { assert k in entries && entries[k]; }
      else { assert Lookup(before, k) == Lookup(now, k); }
    }
    forall k ensures k in now <==> k in WithoutSecrets(before, entries) {
      assert Lookup(now, k) == Lookup(WithoutSecrets(before, entries), k);
    }
    forall k | k in now ensures now[k] == WithoutSecrets(before, entries)[k] {
      assert Lookup(now, k) == Lookup(WithoutSecrets(before, entries), k);
    }
  }

  lemma AgreeTwice(a: Values, b: Values, c: Values, snapshots: seq<InputSnapshot>, secret: bool)
    requires Agree(a, b, snapshots, secret) && Agree(b, c, snapshots, secret)
    ensures Agree(a, c, snapshots, secret)
  {
    forall k ensures Lookup(a, k) == Lookup(c, k) || Names(snapshots, k, secret) {
      assert Lookup(a, k) == Lookup(b, k) || Names(snapshots, k, secret);
      assert Lookup(b, k) == Lookup(c, k) || Names(snapshots, k, secret);
    }
  }

  /** However many values were deleted, holding every snapshot again is holding the same map. */
  lemma RestoredIsSame(before: Values, now: Values, snapshots: seq<InputSnapshot>, secret: bool)
    requires Agree(before, now, snapshots, secret)
    requires Holds(before, snapshots, |snapshots|, secret) && Holds(now, snapshots, |snapshots|, secret)
    ensures now == before
  {
    forall k ensures Lookup(before, k) == Lookup(now, k) {}
    forall k ensures k in before <==> k in now { assert Lookup(before, k) == Lookup(now, k); }
    forall k | k in before ensures now[k] == before[k] { assert Lookup(before, k) == Lookup(now, k); }
  }

  /** Everything stored for one Computer, and whether its runtime is registered and open. */
  class StoredComputer {
    var profile: Option<Profile>
    var storage: Option<Storage>
    var quarantine: Option<Storage>
    var secrets: Values
    var registered: bool
    var retired: bool
    ghost var undoFailed: bool   // some compensation has reported a failure

    constructor (profile: Profile, storage: Option<Storage>, secrets: Values, registered: bool)
      ensures this.profile == Some(profile) && this.storage == storage && this.secrets == secrets
      ensures this.registered == registered && quarantine == None && !retired && !undoFailed
    {
      this.profile, this.storage, this.secrets, this.registered := Some(profile), storage, secrets, registered;
      quarantine, retired, undoFailed := None, false, false;
    }

    // ----- Single writes -----

    method SetValue(id: string, value: string) returns (ok: bool)
      modifies this`storage
      ensures storage == WithValues(old(storage), ValuesOf(old(storage))[id := value])
        || (!ok && storage == old(storage))
    {
      if * { storage := WithValues(storage, ValuesOf(storage)[id := value]); }
      else { return false; }
      if * { return false; }
      return true;
    }

    method DeleteValue(id: string) returns (ok: bool)
      modifies this`storage
      ensures storage == old(storage)
        || (old(storage).Some? && storage == WithValues(old(storage), old(storage).value.values - {id}))
      ensures ok ==> id !in ValuesOf(storage)
    {
      if * { return false; }
      if id !in ValuesOf(storage) { return true; }
      if * { storage := WithValues(storage, ValuesOf(storage) - {id}); }
      else { return false; }
      if * { return false; }
      return true;
    }

    method WriteSecret(id: string, value: Option<string>) returns (ok: bool)
      modifies this`secrets
      ensures secrets == WithEntry(old(secrets), id, value) || (!ok && secrets == old(secrets))
    {
      if * { secrets := WithEntry(secrets, id, value); }
      else { return false; }
      if * { return false; }
      return true;
    }

    // ----- Input storage -----

    method SnapshotInputs() returns (r: Result<seq<InputSnapshot>, Failure>)
      ensures r.Ok? ==> SnapshotsOf(r.value, EntriesOf(storage), storage, secrets)
    {
      var entries := EntriesOf(storage);
      var left, snapshots := entries.Keys, [];
      while left != {}
        invariant left <= entries.Keys
        invariant SnapshotsOf(snapshots, map k | k in entries && k !in left :: entries[k], storage, secrets)
      {
        var k :| k in left;
        if * { return Err(Undone); }
        var taken := if entries[k] then Secret(k, Lookup(secrets, k)) else Plain(k, Lookup(ValuesOf(storage), k));
        SnapshotsGrow(snapshots, taken, map e | e in entries && e !in left :: entries[e], storage, secrets);
        assert (map e | e in entries && e !in left - {k} :: entries[e]) ==
          (map e | e in entries && e !in left :: entries[e])[k := entries[k]];
        snapshots, left := snapshots + [taken], left - {k};
      }
      assert (map k | k in entries && k !in left :: entries[k]) == entries;
      return Ok(snapshots);
    }

    /** Stops at the first failure, with everything before it deleted. */
    method DeleteInputs(snapshots: seq<InputSnapshot>) returns (ok: bool)
      modifies this`storage, this`secrets
      ensures storage.Some? == old(storage).Some?
      ensures storage.Some? ==> storage == WithValues(old(storage), storage.value.values)
      ensures Agree(old(ValuesOf(storage)), ValuesOf(storage), snapshots, false)
      ensures Agree(old(secrets), secrets, snapshots, true)
      ensures ok ==> Gone(ValuesOf(storage), snapshots, |snapshots|, false)
      ensures ok ==> Gone(secrets, snapshots, |snapshots|, true)
    {
      for i := 0 to |snapshots|
        invariant storage.Some? == old(storage).Some?
        invariant storage.Some? ==> storage == WithValues(old(storage), storage.value.values)
        invariant Agree(old(ValuesOf(storage)), ValuesOf(storage), snapshots, false)
        invariant Agree(old(secrets), secrets, snapshots, true)
        invariant Gone(ValuesOf(storage), snapshots, i, false) && Gone(secrets, snapshots, i, true)
      {
        var written;
        match snapshots[i] {
          case Plain(id, _) => written := DeleteValue(id);
          case Secret(id, _) => written := WriteSecret(id, None);
        }
        if !written { return false; }
      }
      return true;
    }

    method RestoreOne(snapshot: InputSnapshot) returns (ok: bool)
      modifies this`storage, this`secrets
      ensures old(storage).Some? ==> storage.Some? && storage == WithValues(old(storage), storage.value.values)
      ensures forall k :: k != snapshot.id || snapshot.Secret? ==>
        Lookup(ValuesOf(storage), k) == Lookup(ValuesOf(old(storage)), k)
      ensures forall k :: k != snapshot.id || snapshot.Plain? ==> Lookup(secrets, k) == Lookup(old(secrets), k)
      ensures ok ==> snapshot.value == Lookup(if snapshot.Secret? then secrets else ValuesOf(storage), snapshot.id)
    {
      match snapshot {
        case Plain(id, None) => ok := DeleteValue(id);
        case Plain(id, Some(value)) => ok := SetValue(id, value);
        case Secret(id, value) => ok := WriteSecret(id, value);
      }
    }

    /** Restores every snapshot, deleted or not, and stops at the first failure. */
    method RestoreInputs(snapshots: seq<InputSnapshot>) returns (ok: bool)
      requires Consistent(snapshots)
      modifies this`storage, this`secrets, this`undoFailed
      ensures undoFailed == (old(undoFailed) || !ok)
      ensures old(storage).Some? ==> storage.Some? && storage == WithValues(old(storage), storage.value.values)
      ensures snapshots == [] ==> storage == old(storage)
      ensures Agree(old(ValuesOf(storage)), ValuesOf(storage), snapshots, false)
      ensures Agree(old(secrets), secrets, snapshots, true)
      ensures ok ==> Holds(ValuesOf(storage), snapshots, |snapshots|, false)
      ensures ok ==> Holds(secrets, snapshots, |snapshots|, true)
    {
      for i := 0 to |snapshots|
        invariant old(storage).Some? ==> storage.Some? && storage == WithValues(old(storage), storage.value.values)
        invariant i == 0 ==> storage == old(storage)
        invariant undoFailed == old(undoFailed)
        invariant Agree(old(ValuesOf(storage)), ValuesOf(storage), snapshots, false)
        invariant Agree(old(secrets), secrets, snapshots, true)
        invariant Holds(ValuesOf(storage), snapshots, i, false) && Holds(secrets, snapshots, i, true)
      {
        var written := RestoreOne(snapshots[i]);
        if !written {
          undoFailed := true;
          return false;
        }
      }
      return true;
    }

    // ----- Storage, profile and runtime -----

    /** `migrate_legacy`, as far as values without an entry go: each becomes a plain one. */
    method AdoptValues() returns (ok: bool)
      modifies this`storage
      ensures storage == old(storage) || storage == Adopted(old(storage))
      ensures ok ==> storage == Adopted(old(storage))
      ensures storage == old(storage) || IsAdopted(old(storage), storage)
    {
      AdoptionKeeps(storage);
      if * { return false; }
      storage := Adopted(storage);
      return true;
    }

    /** Moves the storage aside in one rename, if there is any. */
    method QuarantineStorage() returns (ok: bool)
      modifies this`storage, this`quarantine
      ensures ok ==> storage == None && quarantine == if old(storage).Some? then old(storage) else old(quarantine)
      ensures !ok ==> storage == old(storage) && quarantine == old(quarantine)
    {
      if storage == None { return true; }
      if * { return false; }
      quarantine, storage := storage, None;
      return true;
    }

    method RestoreQuarantine() returns (ok: bool)
      requires quarantine.Some?
      modifies this`storage, this`quarantine, this`undoFailed
      ensures undoFailed == (old(undoFailed) || !ok)
      ensures ok ==> storage == old(quarantine) && quarantine == None
      ensures !ok ==> storage == old(storage) && quarantine == old(quarantine)
    {
      if * {
        undoFailed := true;
        return false;
      }
      storage, quarantine := quarantine, None;
      return true;
    }

    method RemoveProfile() returns (ok: bool)
      modifies this`profile
      ensures profile == if ok then None else old(profile)
    {
      if * { return false; }
      profile := None;
      return true;
    }

    method AddProfile(saved: Profile) returns (ok: bool)
      modifies this`profile, this`undoFailed
      ensures profile == if ok then Some(saved) else old(profile)
      ensures undoFailed == (old(undoFailed) || !ok)
    {
      ok := profile.None?;
      if * { ok := false; }
      if ok { profile := Some(saved); } else { undoFailed := true; }
    }

    /** Closes the runtime for new work; reopened if its preflight fails. */
    method PrepareRemoval() returns (r: Result<bool, Failure>)
      requires !retired
      modifies this`retired
      ensures r.Ok? ==> r.value == registered && retired == registered
      ensures r.Err? ==> !retired
    {
      if !registered { return Ok(false); }
      retired := true;
      if * {
        retired := false;
        return Err(Undone);
      }
      return Ok(true);
    }

    method CommitRemoval() returns (ok: bool)
      modifies this`registered, this`retired
      ensures ok ==> !registered
      ensures !ok ==> registered == old(registered) && !retired
    {
      if * {
        retired := false;
        return false;
      }
      registered := false;
      return true;
    }

    /** Puts back the quarantined storage, then the inputs; goes on after a failure. */
    method RestoreStorage(snapshots: seq<InputSnapshot>) returns (ok: bool)
      requires Consistent(snapshots)
      modifies this`storage, this`quarantine, this`secrets, this`undoFailed
      ensures undoFailed == (old(undoFailed) || !ok)
      ensures ok ==> quarantine == None
      ensures ok && old(quarantine).Some? ==>
        storage.Some? && storage == WithValues(old(quarantine), storage.value.values)
        && Agree(old(quarantine).value.values, storage.value.values, snapshots, false)
      ensures ok && old(quarantine).None? && (old(storage).Some? || snapshots == []) ==>
        storage.Some? == old(storage).Some?
        && (storage.Some? ==> storage == WithValues(old(storage), storage.value.values))
        && Agree(ValuesOf(old(storage)), ValuesOf(storage), snapshots, false)
      ensures ok ==> Holds(ValuesOf(storage), snapshots, |snapshots|, false)
      ensures ok ==> Holds(secrets, snapshots, |snapshots|, true)
      ensures Agree(old(secrets), secrets, snapshots, true)
    {
      ok := true;
      if quarantine.Some? { ok := RestoreQuarantine(); }
      var restored := RestoreInputs(snapshots);
      ok := ok && restored;
    }

    /** The storage with every value owned by an entry, and everything else, as before. */
    twostate predicate AsBefore()
      reads this
    {
      && profile == old(profile) && secrets == old(secrets) && quarantine == None
      && registered == old(registered) && !retired
      && (storage == old(storage) || IsAdopted(old(storage), storage))
    }

    /** All or nothing. Success leaves no profile, no storage, no value and no secret that an entry
        named, and no runtime; what cleaning up may leave in the quarantine holds no plain value.
        An error leaves everything as it was, unless a compensation failed as well. */
    method Delete() returns (r: Result<(), Failure>)
      requires profile.Some? && quarantine == None && !retired
      modifies this
      ensures r.Ok? ==> profile == None && storage == None && !registered
      ensures r.Ok? ==> quarantine.Some? ==>
        forall k :: k in quarantine.value.values ==> k in old(EntriesOf(storage)) && old(EntriesOf(storage))[k]
      ensures r.Ok? ==> secrets == WithoutSecrets(old(secrets), old(EntriesOf(storage)))
      ensures r.Ok? ==> OnlyUnnamed(old(secrets), secrets, old(EntriesOf(storage)))
      ensures r == Err(Undone) ==> AsBefore()
      ensures undoFailed == (old(undoFailed) || r == Err(NotUndone))
    {
      var saved := profile.value;
      var prepared := PrepareRemoval();
      if prepared.Err? { return Err(Undone); }
      var adopted := AdoptValues();
      if !adopted {
        retired := false;
        return Err(Undone);
      }
      var snapshot := SnapshotInputs();
      if snapshot.Err? {
        retired := false;
        return Err(Undone);
      }
      WithoutAdopted(old(storage), secrets);
      r := RemoveParts(snapshot.value, saved, prepared.value);
    }

    /** What the snapshots have to say about both stores together. */
    ghost predicate AllHeld(snapshots: seq<InputSnapshot>)
      reads this
    {
      && Holds(ValuesOf(storage), snapshots, |snapshots|, false)
      && Holds(secrets, snapshots, |snapshots|, true)
    }

    /** From the first deletion on, with the runtime closed and everything snapshotted. */
    method RemoveParts(snapshots: seq<InputSnapshot>, saved: Profile, hasRuntime: bool) returns (r: Result<(), Failure>)
      requires profile == Some(saved) && quarantine == None && hasRuntime == registered && retired == registered
      requires SnapshotsOf(snapshots, EntriesOf(storage), storage, secrets)
      requires ValuesOf(storage).Keys <= EntriesOf(storage).Keys
      modifies this
      ensures r.Ok? ==> profile == None && storage == None && !registered
      ensures r.Ok? ==> quarantine.Some? ==>
        forall k :: k in quarantine.value.values ==> k in old(EntriesOf(storage)) && old(EntriesOf(storage))[k]
      ensures r.Ok? ==> secrets == WithoutSecrets(old(secrets), old(EntriesOf(storage)))
      ensures r.Ok? ==> OnlyUnnamed(old(secrets), secrets, old(EntriesOf(storage)))
      ensures r == Err(Undone) ==>
        && profile == old(profile) && storage == old(storage) && secrets == old(secrets) && quarantine == None
        && registered == old(registered) && !retired
      ensures undoFailed == (old(undoFailed) || r == Err(NotUndone))
    {
      ghost var before, secretsBefore := storage, secrets;
      SnapshotsAreConsistent(snapshots, EntriesOf(storage), storage, secrets);
      var removed := DeleteInputs(snapshots);
      ghost var mid, secretsMid := storage, secrets;
      if removed { removed := QuarantineStorage(); }
      if !removed {
        var restored := RestoreInputs(snapshots);
        retired := false;
        if !restored { return Err(NotUndone); }
        AllIsBack(before, secretsBefore, mid, secretsMid, storage, secrets, snapshots);
        return Err(Undone);
      }
      r := RemoveProfileAndRuntime(snapshots, saved, hasRuntime);
      if r.Ok? {
        DeletedIsWithout(secretsBefore, secrets, snapshots, EntriesOf(before), before, secretsBefore);
        if quarantine.Some? { DeletedValues(before.value, ValuesOf(mid), snapshots, secretsBefore); }
      } else if r == Err(Undone) {
        AllIsBack(before, secretsBefore, mid, secretsMid, storage, secrets, snapshots);
      }
    }

    /** The last two parts; what they undo ends with the inputs held again, and nothing else of the
        storage changed since it was set aside. */
    method RemoveProfileAndRuntime(snapshots: seq<InputSnapshot>, saved: Profile, hasRuntime: bool)
      returns (r: Result<(), Failure>)
      requires profile == Some(saved) && storage == None && hasRuntime == registered && retired == registered
      requires Consistent(snapshots) && (quarantine == None ==> snapshots == [])
      modifies this
      ensures r.Ok? ==> profile == None && storage == None && !registered && secrets == old(secrets)
      ensures r.Ok? ==> quarantine == old(quarantine) || quarantine == None
      ensures r == Err(Undone) ==>
        && profile == old(profile) && registered == old(registered) && !retired && quarantine == None
        && AllHeld(snapshots)
        && Agree(ValuesOf(old(quarantine)), ValuesOf(storage), snapshots, false)
        && Agree(old(secrets), secrets, snapshots, true)
        && storage.Some? == old(quarantine).Some?
        && (storage.Some? ==> storage == WithValues(old(quarantine), storage.value.values))
      ensures undoFailed == (old(undoFailed) || r == Err(NotUndone))
    {
      var removed := RemoveProfile();
      if !removed {
        var restored := RestoreStorage(snapshots);
        retired := false;
        if !restored { return Err(NotUndone); }
        return Err(Undone);
      }
      if hasRuntime {
        var committed := CommitRemoval();
        if !committed {
          var added := AddProfile(saved);
          var restored := RestoreStorage(snapshots);
          if !added || !restored { return Err(NotUndone); }
          return Err(Undone);
        }
      }
      if * { quarantine := None; }
      return Ok(());
    }
  }

  /** Deletion and restoration together change nothing. */
  lemma AllIsBack(before: Option<Storage>, secretsBefore: Values, mid: Option<Storage>, secretsMid: Values,
                  now: Option<Storage>, secretsNow: Values, snapshots: seq<InputSnapshot>)
    requires Holds(ValuesOf(before), snapshots, |snapshots|, false)
    requires Holds(secretsBefore, snapshots, |snapshots|, true)
    requires Holds(ValuesOf(now), snapshots, |snapshots|, false) && Holds(secretsNow, snapshots, |snapshots|, true)
    requires Agree(ValuesOf(before), ValuesOf(mid), snapshots, false)
    requires Agree(ValuesOf(mid), ValuesOf(now), snapshots, false)
    requires Agree(secretsBefore, secretsMid, snapshots, true) && Agree(secretsMid, secretsNow, snapshots, true)
    requires before.Some? == now.Some? && (now.Some? ==> now == WithValues(before, now.value.values))
    ensures now == before && secretsNow == secretsBefore
  {
    AgreeTwice(ValuesOf(before), ValuesOf(mid), ValuesOf(now), snapshots, false);
    AgreeTwice(secretsBefore, secretsMid, secretsNow, snapshots, true);
    RestoredIsSame(ValuesOf(before), ValuesOf(now), snapshots, false);
    RestoredIsSame(secretsBefore, secretsNow, snapshots, true);
  }

  lemma WithoutAdopted(s: Option<Storage>, secrets: Values)
    ensures forall m :: WithoutSecrets(m, EntriesOf(Adopted(s))) == WithoutSecrets(m, EntriesOf(s))
  {}

  lemma DeletedValues(before: Storage, now: Values, snapshots: seq<InputSnapshot>, secrets: Values)
    requires SnapshotsOf(snapshots, before.entries, Some(before), secrets)
    requires Agree(before.values, now, snapshots, false) && Gone(now, snapshots, |snapshots|, false)
    requires before.values.Keys <= before.entries.Keys
    ensures forall k :: k in now ==> k in before.entries && before.entries[k]
  {
    forall k | k in now ensures k in before.entries && before.entries[k] {
      assert Lookup(before.values, k) == Lookup(now, k) || Names(snapshots, k, false);
      assert k in before.entries ==> Names(snapshots, k, before.entries[k]);
    }
  }

  lemma SnapshotsAreConsistent(snapshots: seq<InputSnapshot>, entries: Entries, s: Option<Storage>, secrets: Values)
    requires SnapshotsOf(snapshots, entries, s, secrets)
    ensures Consistent(snapshots)
    ensures Holds(ValuesOf(s), snapshots, |snapshots|, false) && Holds(secrets, snapshots, |snapshots|, true)
    ensures entries == map[] ==> snapshots == []
  {
    if snapshots != [] { assert snapshots[0].id in entries; }
  }
}
