/** Profiles that carry Manager authority, and what a departing Manager Context does to them
    (src-tauri/src/commands/manager.rs). */
module ManagerBindings {
  import opened Outcomes

  type ComputerId = string
  type ContextKey = string

  datatype Target =
    | ManagerRobot(context: ContextKey, employee: nat, account: Option<string>)
    | ManualSmcp(id: string)

  datatype BindingState = Active | Dormant | NeedsRebind

  datatype Binding = Binding(
    context: Option<ContextKey>, state: BindingState, employee: nat, robotId: Option<string>,
    account: Option<string>, namespace: Option<string>, robotName: Option<string>)

  datatype Profile = Profile(target: Option<Target>, autoConnect: bool, binding: Option<Binding>)

  /** The profile auto-connects to a target in `c`. */
  predicate AutoConnects(p: Profile, c: ContextKey) {
    p.autoConnect && p.target.Some? && p.target.value.ManagerRobot? && p.target.value.context == c
  }

  /** The profile has an active binding for `c`. */
  predicate Bound(p: Profile, c: ContextKey) {
    p.binding.Some? && p.binding.value.context == Some(c) && p.binding.value.state == Active
  }

  /** The profile exercises the authority of `c`. */
  predicate Uses(p: Profile, c: ContextKey) {
    AutoConnects(p, c) || Bound(p, c)
  }

  predicate Targets(p: Profile, c: ContextKey) {
    p.target.Some? && p.target.value.ManagerRobot? && p.target.value.context == c
  }

  /** The contexts a profile refers to, through its target or its binding. */
  predicate Mentions(p: Profile, c: ContextKey) {
    Targets(p, c) || (p.binding.Some? && p.binding.value.context == Some(c))
  }

  function DormantBinding(c: ContextKey, employee: nat, account: Option<string>): Binding {
    Binding(Some(c), Dormant, employee, None, account, None, None)
  }

  /** The profile after the departure of `c`. */
  function MadeDormant(p: Profile, c: ContextKey): Profile {
    if !Mentions(p, c) then p
    else
      var kept := p.binding.Some? && p.binding.value.context == Some(c);
      var binding :=
        if kept then p.binding.value.(state := Dormant)
        else DormantBinding(c, p.target.value.employee, p.target.value.account);
      p.(binding := Some(binding), autoConnect := p.autoConnect && !Targets(p, c))
  }

  /** Departure ends the use of that context, begins the use of none, and keeps the target. */
  lemma DepartureEndsUse(p: Profile, c: ContextKey)
    ensures !Uses(MadeDormant(p, c), c)
    ensures forall d :: Uses(MadeDormant(p, c), d) ==> Uses(p, d)
    ensures forall d :: d != c && AutoConnects(p, d) ==> AutoConnects(MadeDormant(p, c), d)
    ensures MadeDormant(p, c).target == p.target
    ensures MadeDormant(MadeDormant(p, c), c) == MadeDormant(p, c)
  {}

  /** Nothing but the use is lost: a profile that does not mention the context is unchanged, a binding
      for it is kept as dormant, and a target in it without such a binding gets a dormant one. */
  lemma DepartureKeepsRest(p: Profile, c: ContextKey)
    ensures var q := MadeDormant(p, c);
      && (!Mentions(p, c) ==> q == p)
      && (q.autoConnect <==> p.autoConnect && !Targets(p, c))
      && (p.binding.Some? && p.binding.value.context == Some(c) ==>
        q.binding == Some(p.binding.value.(state := Dormant)))
      && (Targets(p, c) && !(p.binding.Some? && p.binding.value.context == Some(c)) ==>
        && q.binding.Some? && q.binding.value.context == Some(c) && q.binding.value.state == Dormant
        && q.binding.value.employee == p.target.value.employee && q.binding.value.account == p.target.value.account
        && q.binding.value.robotId == None && q.binding.value.namespace == None && q.binding.value.robotName == None)
  {}

  /** A use of `d` ends with the departure of `c` exactly when `c` is `d`, or the profile
      targets `c` and its binding for `d` had to give way to one for `c`. */
  lemma UsesEndedByDeparture(p: Profile, c: ContextKey, d: ContextKey)
    requires Uses(p, d)
    ensures !Uses(MadeDormant(p, c), d) <==> c == d || (Targets(p, c) && Bound(p, d) && !AutoConnects(p, d))
  {}

  function AllMadeDormant(p: Profile, cs: seq<ContextKey>): Profile
    decreases |cs|
  {
    if cs == [] then p else AllMadeDormant(MadeDormant(p, cs[0]), cs[1..])
  }

  lemma {:induction false} DeparturesEndUse(p: Profile, cs: seq<ContextKey>)
    ensures forall c :: c in cs ==> !Uses(AllMadeDormant(p, cs), c)
    ensures forall d :: Uses(AllMadeDormant(p, cs), d) ==> Uses(p, d)
    decreases |cs|
  {
    if cs != [] {
      DepartureEndsUse(p, cs[0]);
      DeparturesEndUse(MadeDormant(p, cs[0]), cs[1..]);
    }
  }

  /** A Computer's profile as the transactions change it in place. */
  class ComputerInstance {
    var target: Option<Target>
    var autoConnect: bool
    var binding: Option<Binding>

    constructor (p: Profile)
      ensures View() == p
    {
      target, autoConnect, binding := p.target, p.autoConnect, p.binding;
    }

    function View(): Profile
      reads this
    {
      Profile(target, autoConnect, binding)
    }

    /** `make_departing_manager_binding_dormant`. */
    method MakeDormant(c: ContextKey) returns (changed: bool)
      modifies this
      ensures View() == MadeDormant(old(View()), c)
      ensures changed <==> Mentions(old(View()), c)
    {
      var robot := None;
      if target.Some? && target.value.ManagerRobot? && target.value.context == c {
        robot := target;
      }
      var matches := binding.Some? && binding.value.context == Some(c);
      if robot.None? && !matches { return false; }
      if robot.Some? {
        autoConnect := false;
        var replacement := DormantBinding(c, robot.value.employee, robot.value.account);
        if binding.None? { binding := Some(replacement); }
        if binding.value.context != Some(c) {
          binding := Some(replacement);
        } else {
          binding := Some(binding.value.(state := Dormant));
        }
      } else {
        binding := Some(binding.value.(state := Dormant));
      }
      return true;
    }
  }

  /** The profile store and the runtimes of the published Computers, each with its own copy of
      the profile. Any write may fail. */
  class ProfileStore {
    var profiles: map<ComputerId, Profile>
    var runtimes: map<ComputerId, Profile>

    method SaveProfile(id: ComputerId, p: Profile) returns (ok: bool)
      modifies this`profiles
      ensures profiles == if ok then old(profiles)[id := p] else old(profiles)
    {
      ok := true;
      if * { ok := false; } else { profiles := profiles[id := p]; }
    }

    method UpdateRuntime(id: ComputerId, p: Profile) returns (ok: bool)
      modifies this`runtimes
      ensures ok ==> id in old(runtimes) && runtimes == old(runtimes)[id := p]
      ensures !ok ==> runtimes == old(runtimes)
    {
      ok := id in runtimes;
      if ok {
        if * { ok := false; } else { runtimes := runtimes[id := p]; }
      }
    }

    /** `persist_dormant_profile`, under the Computer's operation gate. Without a diagnostic the
        profile is dormant in both places; with one, the persisted profile is as before or
        dormant, and as before when the compensation worked. */
    method PersistDormant(id: ComputerId, c: ContextKey) returns (diagnostic: bool, restored: bool)
      modifies this
      ensures profiles.Keys == old(profiles.Keys) && runtimes.Keys == old(runtimes.Keys)
      ensures forall o :: o in profiles && o != id ==> profiles[o] == old(profiles[o])
      ensures forall o :: o in runtimes && o != id ==> runtimes[o] == old(runtimes[o])
      ensures !diagnostic ==> id in profiles && profiles[id] == MadeDormant(old(profiles)[id], c)
      ensures !diagnostic && Mentions(old(profiles)[id], c) ==> id in runtimes && runtimes[id] == profiles[id]
      ensures diagnostic && restored ==> profiles == old(profiles)
      ensures diagnostic && runtimes != old(runtimes) ==>
        restored && id in runtimes && id in old(profiles) && runtimes[id] == old(profiles)[id]
      ensures diagnostic && id in profiles ==>
        profiles[id] == old(profiles)[id] || profiles[id] == MadeDormant(old(profiles)[id], c)
    {
      diagnostic, restored := false, true;
      if id !in profiles { return true, true; }
      var previous := profiles[id];
      var candidate := new ComputerInstance(previous);
      var changed := candidate.MakeDormant(c);
      if !changed { return; }
      var saved := SaveProfile(id, candidate.View());
      if !saved { return true, true; }
      var applied := UpdateRuntime(id, candidate.View());
      if !applied {
        diagnostic := true;
        restored := SaveProfile(id, previous);
        if restored { var confirmed := UpdateRuntime(id, previous); }
      }
    }
  }
}
