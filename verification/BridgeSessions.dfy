/** Reference-counted bridge sessions (src/services/managerTokenBridge.ts 251-323 and
    src/services/runtimeInputBridge.ts 50-121, which differ in the number of listeners).

    Callers initialise and dispose at any time; starting a session and shutting it down take
    several awaits each, and starting can fail at any of them. */
module BridgeSessions {
  import opened Outcomes

  type SessionId = nat
  type CallerId = nat

  datatype Start = Starting | Started | Broken

  datatype Shutdown = NotShutDown | ShuttingDown | ShutDown

  datatype Session = Session(references: nat, listeners: nat, start: Start, shutdown: Shutdown)

  /** Where one call of `initialize...Bridge`, and then its handle, is. */
  datatype Caller =
    | AwaitsShutdown(session: SessionId)
    | AwaitsStart(session: SessionId)
    | HasHandle(session: SessionId)
    | Disposed(session: SessionId)

  datatype Bridge = Bridge(sessions: map<SessionId, Session>, active: Option<SessionId>, sequence: nat)

  datatype State = State(bridge: Bridge, callers: map<CallerId, Caller>, wanted: nat)

  datatype Step =
    | Initialize(caller: CallerId)
    | Listen(session: SessionId)
    | Ready(session: SessionId)
    | FailStart(session: SessionId)
    | Resume(caller: CallerId)
    | Dispose(caller: CallerId)
    | FinishShutdown(session: SessionId)

  // ---------- The bridge ----------

  predicate IsShuttingDown(b: Bridge) {
    b.active.Some? && b.active.value in b.sessions && b.sessions[b.active.value].shutdown != NotShutDown
  }

  /** The call joins the active session, or creates one. */
  function Joined(b: Bridge): (Bridge, SessionId) {
    if b.active.Some? && b.active.value in b.sessions then
      var s := b.sessions[b.active.value];
      (b.(sessions := b.sessions[b.active.value := s.(references := s.references + 1)]), b.active.value)
    else
      var id := b.sequence + 1;
      (Bridge(b.sessions[id := Session(1, 0, Starting, NotShutDown)], Some(id), id), id)
  }

  function WithSession(b: Bridge, id: SessionId, s: Session): Bridge {
    b.(sessions := b.sessions[id := s])
  }

  /** The call gives its reference back after its session failed to start. */
  function Left(b: Bridge, id: SessionId): Bridge
    requires id in b.sessions && b.sessions[id].references > 0
  {
    var s := b.sessions[id].(references := b.sessions[id].references - 1);
    WithSession(b, id, s).(active := if s.references == 0 && b.active == Some(id) then None else b.active)
  }

  /** A handle gives its reference back; the last one starts the shutdown. */
  function Released(b: Bridge, id: SessionId): Bridge
    requires id in b.sessions && b.sessions[id].references > 0
  {
    var s := b.sessions[id].(references := b.sessions[id].references - 1);
    WithSession(b, id, if s.references == 0 && s.shutdown == NotShutDown then s.(shutdown := ShuttingDown) else s)
  }

  function Closed(b: Bridge, id: SessionId): Bridge
    requires id in b.sessions
  {
    WithSession(b, id, b.sessions[id].(listeners := 0, shutdown := ShutDown))
      .(active := if b.active == Some(id) then None else b.active)
  }

  function Entered(s: State, c: CallerId): State {
    if IsShuttingDown(s.bridge) then s.(callers := s.callers[c := AwaitsShutdown(s.bridge.active.value)])
    else
      var (b, id) := Joined(s.bridge);
      s.(bridge := b, callers := s.callers[c := AwaitsStart(id)])
  }

  // ---------- Steps ----------

  predicate IsStarting(b: Bridge, id: SessionId) {
    id in b.sessions && b.sessions[id].start == Starting
  }

  ghost predicate Enabled(s: State, step: Step) {
    match step
    case Initialize(c) => c !in s.callers
    case Listen(id) => IsStarting(s.bridge, id) && s.bridge.sessions[id].listeners < s.wanted
    case Ready(id) => IsStarting(s.bridge, id) && s.bridge.sessions[id].listeners == s.wanted
    case FailStart(id) => IsStarting(s.bridge, id)
    case Resume(c) =>
      c in s.callers && s.callers[c].session in s.bridge.sessions
      && (match s.callers[c]
          case AwaitsShutdown(id) => s.bridge.sessions[id].shutdown == ShutDown
          case AwaitsStart(id) => s.bridge.sessions[id].start != Starting && s.bridge.sessions[id].references > 0
          case _ => false)
    case Dispose(c) =>
      c in s.callers && s.callers[c].HasHandle?
      && s.callers[c].session in s.bridge.sessions && s.bridge.sessions[s.callers[c].session].references > 0
    case FinishShutdown(id) => id in s.bridge.sessions && s.bridge.sessions[id].shutdown == ShuttingDown
  }

  function Apply(s: State, step: Step): State
    requires Enabled(s, step)
  {
    match step
    case Initialize(c) => Entered(s, c)
    case Listen(id) =>
      var x := s.bridge.sessions[id];
      s.(bridge := WithSession(s.bridge, id, x.(listeners := x.listeners + 1)))
    case Ready(id) => s.(bridge := WithSession(s.bridge, id, s.bridge.sessions[id].(start := Started)))
    case FailStart(id) =>
      s.(bridge := WithSession(s.bridge, id, s.bridge.sessions[id].(start := Broken, listeners := 0)))
    case Resume(c) =>
      var id := s.callers[c].session;
      if s.callers[c].AwaitsShutdown? then Entered(s, c)
      else if s.bridge.sessions[id].start == Started then s.(callers := s.callers[c := HasHandle(id)])
      else s.(bridge := Left(s.bridge, id), callers := s.callers - {c})
    case Dispose(c) =>
      var id := s.callers[c].session;
      s.(bridge := Released(s.bridge, id), callers := s.callers[c := Disposed(id)])
    case FinishShutdown(id) => s.(bridge := Closed(s.bridge, id))
  }

  // ---------- Invariants ----------

  predicate Refers(c: Caller, id: SessionId) {
    (c.AwaitsStart? || c.HasHandle?) && c.session == id
  }

  ghost function Referrers(callers: map<CallerId, Caller>, id: SessionId): set<CallerId> {
    set c | c in callers && Refers(callers[c], id)
  }

  /** References are the waiting calls and the undisposed handles; a session with listeners or
      references is the active one; a failed or shut down session has no listener. */
  ghost predicate SessionOk(s: State, id: SessionId) {
    id in s.bridge.sessions ==>
      var x := s.bridge.sessions[id];
      && id <= s.bridge.sequence
      && x.references == |Referrers(s.callers, id)|
      && x.listeners <= s.wanted
      && (x.listeners > 0 || x.references > 0 || x.start == Starting || x.shutdown == ShuttingDown ==>
        s.bridge.active == Some(id))
      && (x.start == Starting ==> x.references > 0)
      && (x.start == Started && x.shutdown == NotShutDown ==> x.references > 0 && x.listeners == s.wanted)
      && (x.start == Broken || x.shutdown == ShutDown ==> x.listeners == 0)
      && (x.shutdown != NotShutDown ==> x.references == 0 && x.start == Started)
      && (x.shutdown == ShutDown ==> s.bridge.active != Some(id))
  }

  ghost predicate CallerOk(s: State, c: CallerId) {
    c in s.callers ==>
      && s.callers[c].session in s.bridge.sessions
      && (s.callers[c].HasHandle? ==> s.bridge.sessions[s.callers[c].session].start == Started)
      && (s.callers[c].AwaitsShutdown? ==> s.bridge.sessions[s.callers[c].session].shutdown != NotShutDown)
  }

  ghost predicate ActiveOk(s: State) {
    s.bridge.active.Some? ==>
      && s.bridge.active.value in s.bridge.sessions
      && var x := s.bridge.sessions[s.bridge.active.value];
        x.references > 0 || x.shutdown == ShuttingDown
  }

  ghost predicate Inv(s: State) {
    && (forall id :: SessionOk(s, id))
    && (forall c :: CallerOk(s, c))
    && ActiveOk(s)
  }

  lemma ReferrersAfter(callers: map<CallerId, Caller>, c: CallerId, x: Caller, id: SessionId)
    ensures Referrers(callers[c := x], id) ==
      (if Refers(x, id) then Referrers(callers, id) + {c} else Referrers(callers, id) - {c})
    ensures Referrers(callers - {c}, id) == Referrers(callers, id) - {c}
  {}

  lemma NobodyRefersToUnknown(s: State, id: SessionId)
    requires Inv(s) && id !in s.bridge.sessions
    ensures Referrers(s.callers, id) == {}
  {
    forall c | c in s.callers ensures !Refers(s.callers[c], id) { assert CallerOk(s, c); }
  }

  lemma WaitingKeepsSession(s: State, c: CallerId, id: SessionId)
    requires SessionOk(s, id) && (c in s.callers ==> s.callers[c].AwaitsShutdown?) && IsShuttingDown(s.bridge)
    ensures SessionOk(Entered(s, c), id)
  {
    ReferrersAfter(s.callers, c, Entered(s, c).callers[c], id);
  }

  lemma JoiningKeepsSession(s: State, c: CallerId, id: SessionId)
    requires SessionOk(s, id) && (c in s.callers ==> s.callers[c].AwaitsShutdown?)
    requires !IsShuttingDown(s.bridge) && s.bridge.active.Some? && s.bridge.active.value in s.bridge.sessions
    ensures SessionOk(Entered(s, c), id)
  {
    ReferrersAfter(s.callers, c, AwaitsStart(s.bridge.active.value), id);
  }

  lemma CreatingKeepsSession(s: State, c: CallerId, id: SessionId)
    requires Inv(s) && (c in s.callers ==> s.callers[c].AwaitsShutdown?) && s.bridge.active == None
    ensures SessionOk(Entered(s, c), id)
  {
    assert SessionOk(s, id) && SessionOk(s, s.bridge.sequence + 1);
    ReferrersAfter(s.callers, c, AwaitsStart(s.bridge.sequence + 1), id);
    if id !in s.bridge.sessions { NobodyRefersToUnknown(s, id); }
  }

  lemma EnteringKeepsSession(s: State, c: CallerId, id: SessionId)
    requires Inv(s) && (c in s.callers ==> s.callers[c].AwaitsShutdown?)
    ensures SessionOk(Entered(s, c), id)
  {
    assert SessionOk(s, id);
    if s.bridge.active == None { CreatingKeepsSession(s, c, id); }
    else if IsShuttingDown(s.bridge) { WaitingKeepsSession(s, c, id); }
    else { JoiningKeepsSession(s, c, id); }
  }

  lemma ResumeKeepsSession(s: State, c: CallerId, id: SessionId)
    requires Inv(s) && Enabled(s, Resume(c)) && s.callers[c].AwaitsStart?
    ensures SessionOk(Apply(s, Resume(c)), id)
  {
    assert SessionOk(s, id) && SessionOk(s, s.callers[c].session) && c in Referrers(s.callers, s.callers[c].session);
    ReferrersAfter(s.callers, c, HasHandle(s.callers[c].session), id);
  }

  lemma DisposeKeepsSession(s: State, c: CallerId, id: SessionId)
    requires Inv(s) && Enabled(s, Dispose(c))
    ensures SessionOk(Apply(s, Dispose(c)), id)
  {
    assert SessionOk(s, id) && CallerOk(s, c) && SessionOk(s, s.callers[c].session);
    assert c in Referrers(s.callers, s.callers[c].session);
    ReferrersAfter(s.callers, c, Disposed(s.callers[c].session), id);
  }

  lemma StepKeepsSession(s: State, step: Step, id: SessionId)
    requires Inv(s) && Enabled(s, step)
    ensures SessionOk(Apply(s, step), id)
  {
    match step
    case Initialize(c) => EnteringKeepsSession(s, c, id);
    case Resume(c) =>
      if s.callers[c].AwaitsShutdown? { EnteringKeepsSession(s, c, id); } else { ResumeKeepsSession(s, c, id); }
    case Dispose(c) => DisposeKeepsSession(s, c, id);
    case _ => assert SessionOk(s, id) && SessionOk(s, step.session);
  }

  lemma StepKeepsCaller(s: State, step: Step, c: CallerId)
    requires Inv(s) && Enabled(s, step)
    ensures CallerOk(Apply(s, step), c)
  {
    assert CallerOk(s, c);
    if c in s.callers { assert SessionOk(s, s.callers[c].session); }
  }

  lemma StepKeepsActive(s: State, step: Step)
    requires Inv(s) && Enabled(s, step)
    ensures ActiveOk(Apply(s, step))
  {
    if s.bridge.active.Some? { assert SessionOk(s, s.bridge.active.value); }
    if step.Dispose? { assert CallerOk(s, step.caller) && SessionOk(s, s.callers[step.caller].session); }
  }

  // ---------- Runs ----------

  ghost predicate Init(s: State) {
    s.bridge == Bridge(map[], None, 0) && s.callers == map[]
  }

  ghost predicate IsStep(s: State, step: Step, s': State) {
    Enabled(s, step) && s' == Apply(s, step)
  }

  ghost predicate IsRun(states: seq<State>, steps: seq<Step>) {
    && |states| == |steps| + 1
    && Init(states[0])
    && forall i {:trigger steps[i]} :: 0 <= i < |steps| ==> IsStep(states[i], steps[i], states[i + 1])
  }

  lemma {:induction false} RunKeepsInv(states: seq<State>, steps: seq<Step>, i: nat)
    requires IsRun(states, steps) && i < |states|
    ensures Inv(states[i])
  {
    if i > 0 {
      var s, step := states[i - 1], steps[i - 1];
      RunKeepsInv(states, steps, i - 1);
      assert states[i] == Apply(s, step);
      forall id ensures SessionOk(states[i], id) { StepKeepsSession(s, step, id); }
      forall c ensures CallerOk(states[i], c) { StepKeepsCaller(s, step, c); }
      StepKeepsActive(s, step);
    }
  }

  /** References count exactly the calls waiting for the start and the undisposed handles, and so
      never run below zero: a reference given back is always there. */
  lemma ReferencesAreExact(states: seq<State>, steps: seq<Step>, i: nat, c: CallerId)
    requires IsRun(states, steps) && i < |states| && c in states[i].callers
    ensures var s, id := states[i], states[i].callers[c].session;
      && id in s.bridge.sessions
      && s.bridge.sessions[id].references == |Referrers(s.callers, id)|
      && (Refers(s.callers[c], id) ==> s.bridge.sessions[id].references > 0)
  {
    RunKeepsInv(states, steps, i);
    var s, id := states[i], states[i].callers[c].session;
    assert CallerOk(s, c) && SessionOk(s, id);
    if Refers(s.callers[c], id) { assert c in Referrers(s.callers, id); }
  }

  /** At most one session has listeners. */
  lemma OneListeningSession(states: seq<State>, steps: seq<Step>, i: nat, a: SessionId, b: SessionId)
    requires IsRun(states, steps) && i < |states|
    requires a in states[i].bridge.sessions && states[i].bridge.sessions[a].listeners > 0
    requires b in states[i].bridge.sessions && states[i].bridge.sessions[b].listeners > 0
    ensures a == b
  {
    RunKeepsInv(states, steps, i);
    assert SessionOk(states[i], a) && SessionOk(states[i], b);
  }

  /** As long as a handle is not disposed, its session is the active one, has all its listeners,
      and is not shutting down. */
  lemma HandlesAreServed(states: seq<State>, steps: seq<Step>, i: nat, c: CallerId)
    requires IsRun(states, steps) && i < |states| && c in states[i].callers && states[i].callers[c].HasHandle?
    ensures var s, id := states[i], states[i].callers[c].session;
      && s.bridge.active == Some(id) && id in s.bridge.sessions
      && s.bridge.sessions[id].listeners == s.wanted && s.bridge.sessions[id].shutdown == NotShutDown
  {
    RunKeepsInv(states, steps, i);
    ReferencesAreExact(states, steps, i, c);
    assert CallerOk(states[i], c) && SessionOk(states[i], states[i].callers[c].session);
  }

  /** No listener survives a shutdown or a failed start. */
  lemma NoListenerSurvives(states: seq<State>, steps: seq<Step>, i: nat, id: SessionId)
    requires IsRun(states, steps) && i < |states| && id in states[i].bridge.sessions
    requires states[i].bridge.sessions[id].start == Broken || states[i].bridge.sessions[id].shutdown == ShutDown
    ensures states[i].bridge.sessions[id].listeners == 0
  {
    RunKeepsInv(states, steps, i);
    assert SessionOk(states[i], id);
  }

  // ---------- The module's functions ----------

  /** What initialising returns: the function that gives the reference back. */
  class Handle {
    const session: SessionId
    var disposed: bool

    constructor (session: SessionId)
      ensures this.session == session && !disposed
    {
      this.session, disposed := session, false;
    }
  }

  /** The module's variables, and the sections between its awaits. */
  class BridgeModule {
    var sessions: map<SessionId, Session>
    var active: Option<SessionId>
    var leaseSequence: nat

    ghost function View(): Bridge
      reads this
    {
      Bridge(sessions, active, leaseSequence)
    }

    constructor ()
      ensures View() == Bridge(map[], None, 0)
    {
      sessions, active, leaseSequence := map[], None, 0;
    }

    /** Up to the first await; no result means waiting for a shutdown first. */
    method Initialize() returns (joined: Option<SessionId>)
      requires active.Some? ==> active.value in sessions
      modifies this
      ensures joined.None? <==> IsShuttingDown(old(View()))
      ensures joined.None? ==> View() == old(View())
      ensures joined.Some? ==> (View(), joined.value) == Joined(old(View()))
    {
      if active.Some? && sessions[active.value].shutdown != NotShutDown { return None; }
      var session;
      if active.Some? {
        session := active.value;
      } else {
        leaseSequence := leaseSequence + 1;
        session := leaseSequence;
        sessions := sessions[session := Session(0, 0, Starting, NotShutDown)];
      }
      active := Some(session);
      sessions := sessions[session := sessions[session].(references := sessions[session].references + 1)];
      assert sessions == old(sessions)[session := sessions[session]];
      return Some(session);
    }

    /** The session's start was rejected. */
    method StartRejected(session: SessionId)
      requires session in sessions && sessions[session].references > 0
      modifies this
      ensures View() == Left(old(View()), session)
    {
      sessions := sessions[session := sessions[session].(references := sessions[session].references - 1)];
      if sessions[session].references == 0 && active == Some(session) { active := None; }
    }

    /** Disposing a second time does nothing. */
    method Dispose(handle: Handle)
      requires handle.session in sessions && (!handle.disposed ==> sessions[handle.session].references > 0)
      modifies this, handle
      ensures handle.disposed
      ensures View() == if old(handle.disposed) then old(View()) else Released(old(View()), handle.session)
    {
      if handle.disposed { return; }
      handle.disposed := true;
      var session := handle.session;
      sessions := sessions[session := sessions[session].(references := sessions[session].references - 1)];
      if sessions[session].references > 0 { return; }
      if sessions[session].shutdown == NotShutDown {
        sessions := sessions[session := sessions[session].(shutdown := ShuttingDown)];
      }
    }

    /** The end of the shutdown, whether or not the backend was told. */
    method FinishShutdown(session: SessionId)
      requires session in sessions
      modifies this
      ensures View() == Closed(old(View()), session)
    {
      sessions := sessions[session := sessions[session].(listeners := 0, shutdown := ShutDown)];
      if active == Some(session) { active := None; }
    }
  }
}
