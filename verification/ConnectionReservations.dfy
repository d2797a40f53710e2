/** The in-memory reservations of connection targets (src-tauri/src/commands/connection.rs
    2434-2500). */
module ConnectionReservations {
  import opened Outcomes

  type ComputerId = string

  function TargetKey(target: string): string {
    "target:" + target
  }

  function OfficeKey(office: string): string {
    "office:" + office
  }

  function Keys(target: string, office: string): set<string> {
    {TargetKey(target), OfficeKey(office)}
  }

  /** Two attempts share a key exactly when they share the target or the office. */
  lemma KeysMeet(a: string, b: string, c: string, d: string)
    ensures TargetKey(a) != OfficeKey(b)
    ensures Keys(a, b) !! Keys(c, d) <==> a != c && b != d
  {
    assert TargetKey(a)[0] == TargetKey(c)[0] == 't' && OfficeKey(b)[0] == OfficeKey(d)[0] == 'o';
    assert TargetKey(a)[7..] == a && TargetKey(c)[7..] == c;
    assert OfficeKey(b)[7..] == b && OfficeKey(d)[7..] == d;
    assert TargetKey(a) in Keys(a, b) && OfficeKey(b) in Keys(a, b);
    assert TargetKey(c) in Keys(c, d) && OfficeKey(d) in Keys(c, d);
  }

  function ReservedMap(m: map<string, ComputerId>, keys: set<string>, owner: ComputerId): map<string, ComputerId> {
    map k | k in m.Keys + keys :: if k in keys then owner else m[k]
  }

  function DroppedMap(m: map<string, ComputerId>, keys: set<string>, owner: ComputerId): map<string, ComputerId> {
    map k | k in m && !(k in keys && m[k] == owner) :: m[k]
  }

  /** The shared map, changed under a short mutex. */
  class ReservationMap {
    var owners: map<string, ComputerId>

    constructor ()
      ensures owners == map[]
    {
      owners := map[];
    }

    method Reserve(computer: ComputerId, target: string, office: string)
      returns (r: Result<seq<string>, ComputerId>)
      modifies this
      ensures r.Ok? <==> Keys(target, office) !! old(owners).Keys
      ensures r.Err? ==> owners == old(owners)
      ensures r.Err? ==> exists k :: k in Keys(target, office) && k in owners && owners[k] == r.error
      ensures r.Ok? ==> (forall k :: k in r.value <==> k in Keys(target, office)) && |r.value| == 2
      ensures r.Ok? ==> owners == ReservedMap(old(owners), Keys(target, office), computer)
    {
      KeysMeet(target, office, target, office);
      var keys := [OfficeKey(office), TargetKey(target)];
      for i := 0 to |keys|
        invariant forall j :: 0 <= j < i ==> keys[j] !in owners
      {
        if keys[i] in owners { return Err(owners[keys[i]]); }
      }
      assert keys[0] !in owners && keys[1] !in owners;
      for i := 0 to |keys|
        invariant owners == ReservedMap(old(owners), set j | 0 <= j < i :: keys[j], computer)
      {
        owners := owners[keys[i] := computer];
      }
      var reserved := set j | 0 <= j < |keys| :: keys[j];
      assert keys[0] in reserved && keys[1] in reserved;
      assert reserved == Keys(target, office);
      return Ok(keys);
    }

    /** Dropping a reservation frees its keys, as far as they are still its owner's. */
    method Drop(computer: ComputerId, keys: seq<string>)
      modifies this
      ensures owners == DroppedMap(old(owners), set j | 0 <= j < |keys| :: keys[j], computer)
    {
      for i := 0 to |keys|
        invariant owners == DroppedMap(old(owners), set j | 0 <= j < i :: keys[j], computer)
      {
        if keys[i] in owners && owners[keys[i]] == computer { owners := owners - {keys[i]}; }
      }
    }
  }
}
