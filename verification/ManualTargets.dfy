/** The catalog of manual targets and their API keys (src-tauri/src/commands/connection.rs 150-310).
    A target is saved or deleted in two stores; the second write's failure is compensated in the
    first. A failed key write may still have landed. */
module ManualTargets {
  import opened Outcomes

  datatype Target = Target(id: string, name: string, office: string, endpoint: string)

  datatype KeyAction = Unchanged | Set(value: string) | Clear

  datatype Failure =
    | StillConnected
    | NotFound
    | NotRead
    | KeyNotWritten
    | Undone        // the record's write failed, and the key is back
    | NotUndone     // the record's write failed, and so did the compensation

  /** Both stores as one target sees them. */
  datatype Stored = Stored(record: Option<Target>, key: Option<string>)

  class TargetStore {
    var catalog: map<string, Target>
    var keys: map<string, string>

    constructor ()
      ensures catalog == map[] && keys == map[]
    {
      catalog, keys := map[], map[];
    }

    ghost function Of(id: string): Stored
      reads this
    {
      Stored(Lookup(catalog, id), Lookup(keys, id))
    }

    method WriteKey(id: string, key: Option<string>) returns (ok: bool)
      modifies this`keys
      ensures keys == WithEntry(old(keys), id, key) || (!ok && keys == old(keys))
    {
      if * { keys := WithEntry(keys, id, key); } else { return false; }
      if * { return false; }
      return true;
    }

    method SaveRecord(target: Target) returns (ok: bool)
      modifies this`catalog
      ensures catalog == if ok then old(catalog)[target.id := target] else old(catalog)
    {
      if * { return false; }
      catalog := catalog[target.id := target];
      return true;
    }

    method DeleteRecord(id: string) returns (ok: bool)
      modifies this`catalog
      ensures catalog == if ok then old(catalog) - {id} else old(catalog)
    {
      if * { return false; }
      catalog := catalog - {id};
      return true;
    }

    /** Success saves the record with exactly the key asked for; otherwise the catalog is as it
        was, and so is the key, unless its own write or its restoration failed. No other target is
        touched. `trimmed` is the key without surrounding blanks. */
    method Save(target: Target, action: KeyAction, trimmed: string) returns (r: Result<(), Failure>)
      modifies this
      ensures r.Ok? ==> Of(target.id) == Stored(Some(target),
        if action.Clear? then None
        else if action.Set? && trimmed != [] then Some(trimmed)
        else old(Of(target.id)).key)
      ensures r.Err? ==> catalog == old(catalog)
      ensures r == Err(Undone) || r == Err(NotRead) ==> keys == old(keys)
      ensures r == Err(KeyNotWritten) ==> action.Clear? || (action.Set? && trimmed != [])
      ensures forall o :: o != target.id ==> Of(o) == old(Of(o))
    {
      var writes := action.Clear? || (action.Set? && trimmed != []);
      var previous := Lookup(keys, target.id);
      if writes {
        if * { return Err(NotRead); }
        var written := WriteKey(target.id, if action.Clear? then None else Some(trimmed));
        if !written { return Err(KeyNotWritten); }
      }
      var saved := SaveRecord(target);
      if saved { return Ok(()); }
      if writes {
        var restored := WriteKey(target.id, previous);
        if !restored { return Err(NotUndone); }
        assert keys == old(keys);
      }
      return Err(Undone);
    }

    /** A target in use is not deleted; success removes both record and key; otherwise the record
        stays, and so does the key, unless its deletion or restoration failed. `connections` are
        the targets the runtimes are connected to. */
    method Delete(id: string, connections: seq<Option<string>>) returns (r: Result<(), Failure>)
      modifies this
      ensures r == Err(StillConnected) <==> Some(id) in connections
      ensures r == Err(NotFound) ==> id !in old(catalog)
      ensures r.Ok? ==> id in old(catalog) && Of(id) == Stored(None, None)
      ensures r.Err? ==> catalog == old(catalog)
      ensures r.Err? && r.error != KeyNotWritten && r.error != NotUndone ==> keys == old(keys)
      ensures forall o :: o != id ==> Of(o) == old(Of(o))
    {
      for i := 0 to |connections|
        invariant forall j :: 0 <= j < i ==> connections[j] != Some(id)
      {
        if connections[i] == Some(id) { return Err(StillConnected); }
      }
      if id !in catalog { return Err(NotFound); }
      if * { return Err(NotRead); }
      var previous := Lookup(keys, id);
      var written := WriteKey(id, None);
      if !written { return Err(KeyNotWritten); }
      var deleted := DeleteRecord(id);
      if deleted { return Ok(()); }
      var restored := WriteKey(id, previous);
      if !restored { return Err(NotUndone); }
      assert keys == old(keys);
      return Err(Undone);
    }
  }
}
