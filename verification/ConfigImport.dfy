/** Recoverable configuration import (src-tauri/src/commands/config_io.rs).

    An import writes two stores of one Computer: its project input document and its local MCP
    servers. A redo journal makes the pair recoverable. Every write below may succeed, fail, or be
    cut short by a crash; a failed journal or input write may still have reached the disk, because
    the file is renamed before its directory is synchronised. The server import is atomic: when it
    reports a failure, the servers are as they were. */
module ConfigImport {
  import opened Outcomes
  import opened InputDefinitions

  datatype Server = Server(name: string, body: string)

  datatype Phase = Pending | Aborted | Committed

  datatype Transaction = Transaction(servers: seq<Server>, inputs: seq<InputDefinition>)

  datatype Journal = Journal(phase: Phase, tx: Transaction)

  /** What the two stores hold. */
  datatype Content = Content(inputs: seq<SdkInput>, servers: map<string, string>)

  // ---------- The effect of a transaction ----------

  /** Server import is an upsert by name; of two servers with one name, the later stays. */
  function Upsert(servers: map<string, string>, incoming: seq<Server>): map<string, string>
    decreases |incoming|
  {
    if incoming == [] then servers
    else Upsert(servers[incoming[0].name := incoming[0].body], incoming[1..])
  }

  function Names(incoming: seq<Server>): set<string> {
    set i | 0 <= i < |incoming| :: incoming[i].name
  }

  /** The server is the last of its name in the list. */
  predicate IsLast(incoming: seq<Server>, i: nat)
    requires i < |incoming|
  {
    forall j :: i < j < |incoming| ==> incoming[j].name != incoming[i].name
  }

  /** The servers after an import: those before with the incoming names added; each incoming name has
      the body of its last incoming server, every other name the body it had. */
  ghost predicate HoldsServers(before: map<string, string>, after: map<string, string>, incoming: seq<Server>) {
    && after.Keys == before.Keys + Names(incoming)
    && (forall i :: 0 <= i < |incoming| && IsLast(incoming, i) ==> after[incoming[i].name] == incoming[i].body)
    && (forall n :: n in before && n !in Names(incoming) ==> after[n] == before[n])
  }

  lemma {:induction false} UpsertHoldsServers(servers: map<string, string>, incoming: seq<Server>)
    ensures HoldsServers(servers, Upsert(servers, incoming), incoming)
    decreases |incoming|
  {
    if incoming != [] {
      var first, rest := incoming[0], incoming[1..];
      var begun, after := servers[first.name := first.body], Upsert(servers, incoming);
      UpsertHoldsServers(begun, rest);
      NamesOfFirst(incoming);
      forall i | 0 <= i < |incoming| && IsLast(incoming, i) ensures after[incoming[i].name] == incoming[i].body {
        if i > 0 { LastInRest(incoming, i); } else { FirstIsLast(incoming); }
      }
    }
  }

  lemma NamesOfFirst(incoming: seq<Server>)
    requires incoming != []
    ensures Names(incoming) == {incoming[0].name} + Names(incoming[1..])
  {
    forall n | n in Names(incoming) ensures n in {incoming[0].name} + Names(incoming[1..]) {
      var i :| 0 <= i < |incoming| && incoming[i].name == n;
      if i > 0 { assert incoming[1..][i - 1].name == n; }
    }
    forall n | n in Names(incoming[1..]) ensures n in Names(incoming) {
      var i :| 0 <= i < |incoming[1..]| && incoming[1..][i].name == n;
      assert incoming[i + 1].name == n;
    }
  }

  lemma LastInRest(incoming: seq<Server>, i: nat)
    requires 0 < i < |incoming| && IsLast(incoming, i)
    ensures IsLast(incoming[1..], i - 1) && incoming[1..][i - 1] == incoming[i]
  {}

  lemma FirstIsLast(incoming: seq<Server>)
    requires incoming != [] && IsLast(incoming, 0)
    ensures incoming[0].name !in Names(incoming[1..])
  {}

  lemma {:induction false} UpsertOverlays(servers: map<string, string>, incoming: seq<Server>)
    ensures Upsert(servers, incoming) == servers + Upsert(map[], incoming)
    decreases |incoming|
  {
    if incoming != [] {
      var s, rest := incoming[0], incoming[1..];
      UpsertOverlays(servers[s.name := s.body], rest);
      UpsertOverlays(map[s.name := s.body], rest);
      var overlay := Upsert(map[], rest);
      assert servers[s.name := s.body] + overlay == servers + (map[s.name := s.body] + overlay);
    }
  }

  lemma UpsertTwice(servers: map<string, string>, incoming: seq<Server>)
    ensures Upsert(Upsert(servers, incoming), incoming) == Upsert(servers, incoming)
  {
    UpsertOverlays(servers, incoming);
    UpsertOverlays(Upsert(servers, incoming), incoming);
    assert (servers + Upsert(map[], incoming)) + Upsert(map[], incoming) == servers + Upsert(map[], incoming);
  }

  /** Whether the inputs of a transaction can be merged into a document at all. */
  predicate Applicable(c: Content, tx: Transaction, portable: Portability) {
    tx.inputs == [] || ImportedDocument(c.inputs, tx.inputs, portable).Some?
  }

  /** Both stores after the transaction; a transaction that does not apply changes nothing. */
  function Applied(c: Content, tx: Transaction, portable: Portability): Content {
    if !Applicable(c, tx, portable) then c
    else Content(if tx.inputs == [] then c.inputs else ImportedDocument(c.inputs, tx.inputs, portable).value,
                 Upsert(c.servers, tx.servers))
  }

  /** The document after an import: the definitions it leaves alone, each as it is read, in their
      order, and then the imported ones in theirs. */
  ghost predicate HoldsInputs(before: seq<SdkInput>, after: seq<SdkInput>, inputs: seq<InputDefinition>) {
    if inputs == [] then after == before
    else
      var rest := Others(DecodeAll(before), Ids(inputs));
      && |after| == |rest| + |inputs|
      && (forall i :: 0 <= i < |rest| ==> after[i] == ToSdk(Normalized(rest[i])))
      && (forall i :: 0 <= i < |inputs| ==> after[|rest| + i] == ToSdk(inputs[i]))
  }

  /** What an applied transaction leaves in both stores, said of the stores alone. */
  lemma AppliedHolds(c: Content, tx: Transaction, portable: Portability)
    requires Prepared(tx, portable)
    ensures Applicable(c, tx, portable) ==>
      && HoldsServers(c.servers, Applied(c, tx, portable).servers, tx.servers)
      && HoldsInputs(c.inputs, Applied(c, tx, portable).inputs, tx.inputs)
  {
    UpsertHoldsServers(c.servers, tx.servers);
    PrepareIdempotent(tx.inputs, portable);
    MergeIsReplacement(DecodeAll(c.inputs), tx.inputs);
    forall i | 0 <= i < |tx.inputs| ensures Normalized(tx.inputs[i]) == tx.inputs[i] {
      assert NormalizedAll(tx.inputs)[i] == Normalized(tx.inputs[i]);
    }
  }

  /** A transaction as a journal records it: its inputs passed the portability boundary. */
  ghost predicate Prepared(tx: Transaction, portable: Portability) {
    && Acceptable(tx.inputs, portable)
    && NormalizedAll(tx.inputs) == tx.inputs
  }

  /** The stored argument lists that the transaction leaves alone are within the million that the
      padded keys keep in order. */
  ghost predicate Replayable(c: Content, tx: Transaction) {
    tx.inputs == [] || UntouchedInOrder(c.inputs, tx.inputs)
  }

  /** A transaction with inputs cannot be applied exactly when the stored definitions that it would
      leave alone are refused by themselves. */
  lemma ApplicableExactly(c: Content, tx: Transaction, portable: Portability)
    requires Prepared(tx, portable)
    ensures Applicable(c, tx, portable)
       <==> tx.inputs == [] || Acceptable(Others(DecodeAll(c.inputs), Ids(tx.inputs)), portable)
  {
    PrepareIdempotent(tx.inputs, portable);
    ImportedDocumentExists(c.inputs, tx.inputs, portable);
  }

  /** `c'` is a state of the stores somewhere between `c` and the end of `tx`. */
  ghost predicate Between(c: Content, c': Content, tx: Transaction, portable: Portability) {
    && (c'.inputs == c.inputs || c'.inputs == Applied(c, tx, portable).inputs)
    && (c'.servers == c.servers || c'.servers == Applied(c, tx, portable).servers)
  }

  /** However far a transaction got, running it again leads to the same end. */
  lemma RedoAbsorbs(c: Content, c': Content, tx: Transaction, portable: Portability)
    requires Prepared(tx, portable) && Replayable(c, tx)
    requires Between(c, c', tx, portable)
    ensures Applied(c', tx, portable) == Applied(c, tx, portable)
    ensures Applicable(c', tx, portable) <==> Applicable(c, tx, portable)
  {
    UpsertTwice(c.servers, tx.servers);
    if tx.inputs != [] && Applicable(c, tx, portable) {
      ImportReplays(c.inputs, tx.inputs, portable);
    }
  }

  /** A transaction that can be redone can still be redone when it has got somewhere. */
  lemma AppliedStaysReplayable(c: Content, tx: Transaction, portable: Portability)
    requires Prepared(tx, portable) && Replayable(c, tx)
    ensures Replayable(Applied(c, tx, portable), tx)
  {
    if tx.inputs != [] && Applicable(c, tx, portable) {
      PrepareIdempotent(tx.inputs, portable);
      ImportLeavesUntouchedInOrder(c.inputs, tx.inputs, portable);
    }
  }

  // ---------- Whole sessions ----------

  datatype Request = Request(servers: seq<Server>, definitions: seq<InputDefinition>)

  function RequestedTransaction(r: Request): Transaction {
    Transaction(r.servers, NormalizedAll(r.definitions))
  }

  /** The stores after the requests marked as included, in order. */
  function Folded(base: Content, requests: seq<Request>, included: seq<bool>, portable: Portability): Content
    requires |requests| == |included|
  {
    if requests == [] then base
    else
      var last := |requests| - 1;
      var before := Folded(base, requests[..last], included[..last], portable);
      if included[last] then Applied(before, RequestedTransaction(requests[last]), portable) else before
  }

  /** Whatever of the earlier requests was included, each request finds the lists it leaves alone
      within the limit. */
  ghost predicate SessionReplayable(base: Content, requests: seq<Request>, portable: Portability) {
    forall i, included: seq<bool> :: 0 <= i < |requests| && |included| == i ==>
      Replayable(Folded(base, requests[..i], included, portable), RequestedTransaction(requests[i]))
  }

  /** The request's servers and definitions are in the stores right after it, beside what it leaves
      alone. */
  ghost predicate TookEffect(base: Content, requests: seq<Request>, included: seq<bool>, i: nat, portable: Portability)
    requires i < |requests| && i < |included|
  {
    var before := Folded(base, requests[..i], included[..i], portable);
    var after := Folded(base, requests[..i + 1], included[..i + 1], portable);
    && HoldsServers(before.servers, after.servers, requests[i].servers)
    && HoldsInputs(before.inputs, after.inputs, NormalizedAll(requests[i].definitions))
  }

  lemma TookEffectStays(base: Content, requests: seq<Request>, included: seq<bool>, next: bool, i: nat,
                        portable: Portability)
    requires i < |included| && i < |requests| && TookEffect(base, requests, included, i, portable)
    ensures TookEffect(base, requests, included + [next], i, portable)
  {
    assert (included + [next])[..i] == included[..i] && (included + [next])[..i + 1] == included[..i + 1];
  }

  lemma RequestReplayable(base: Content, requests: seq<Request>, i: nat, included: seq<bool>, portable: Portability)
    requires SessionReplayable(base, requests, portable) && i < |requests| && |included| == i
    ensures Replayable(Folded(base, requests[..i], included, portable), RequestedTransaction(requests[i]))
  {}

  /** A document and requests within the limit make such a session. */
  lemma InOrderSessionReplayable(base: Content, requests: seq<Request>, portable: Portability)
    requires DocumentInOrder(base.inputs)
    requires forall r :: r in requests ==> DefinitionsInOrder(r.definitions)
    ensures SessionReplayable(base, requests, portable)
  {
    forall i, included: seq<bool> | 0 <= i < |requests| && |included| == i
      ensures Replayable(Folded(base, requests[..i], included, portable), RequestedTransaction(requests[i]))
    {
      FoldedInOrder(base, requests[..i], included, portable);
    }
  }

  lemma {:induction false} FoldedInOrder(base: Content, requests: seq<Request>, included: seq<bool>,
                                         portable: Portability)
    requires |requests| == |included| && DocumentInOrder(base.inputs)
    requires forall r :: r in requests ==> DefinitionsInOrder(r.definitions)
    ensures DocumentInOrder(Folded(base, requests, included, portable).inputs)
    decreases |requests|
  {
    if requests != [] {
      var last := |requests| - 1;
      var before := Folded(base, requests[..last], included[..last], portable);
      FoldedInOrder(base, requests[..last], included[..last], portable);
      AppliedInOrder(before, requests[last], portable);
    }
  }

  lemma AppliedInOrder(c: Content, r: Request, portable: Portability)
    requires DocumentInOrder(c.inputs) && DefinitionsInOrder(r.definitions)
    ensures DocumentInOrder(Applied(c, RequestedTransaction(r), portable).inputs)
  {
    var tx := RequestedTransaction(r);
    if tx.inputs != [] && Applicable(c, tx, portable) {
      forall d | d in tx.inputs ensures KeyedInOrder(d) {
        var i :| 0 <= i < |tx.inputs| && tx.inputs[i] == d;
        assert r.definitions[i] in r.definitions;
      }
      ImportedIsInOrder(c.inputs, tx.inputs, portable);
    }
  }

  // ---------- The files of one Computer ----------

  datatype Write = Done | Failed | Crashed

  datatype Replacement =
    | Replaced(previous: seq<SdkInput>)
    | Unchanged
    | Reverted
    | OutcomeUncertain
    | ReplacementCrashed

  datatype ImportOutcome =
    | Imported
    | Rejected            // refused before a journal was written
    | JournalNotPrepared  // the journal write reported a failure
    | RolledBack          // reverted, and the journal says so
    | RollbackUnrecorded  // reverted, but the journal write reported a failure
    | Retained            // the pending journal was kept for recovery
    | Interrupted

  /** What a reported outcome says about whether the import is part of the stores. */
  predicate Included(outcome: ImportOutcome, included: bool) {
    && (outcome.Imported? || outcome.Retained? ==> included)
    && (outcome.Rejected? || outcome.RolledBack? ==> !included)
  }

  class ComputerFiles {
    const portable: Portability
    var inputs: seq<SdkInput>
    var servers: map<string, string>
    var journal: Option<Journal>

    constructor (inputs: seq<SdkInput>, servers: map<string, string>, portable: Portability)
      ensures Valid() && Recovered() == Content(inputs, servers) && this.portable == portable
    {
      this.inputs, this.servers, this.journal, this.portable := inputs, servers, None, portable;
    }

    ghost predicate Valid()
      reads this
    {
      && (journal.Some? ==> Prepared(journal.value.tx, portable))
      && (HasPending() ==> Replayable(Now(), journal.value.tx))
    }

    ghost function Now(): Content
      reads this
    {
      Content(inputs, servers)
    }

    ghost predicate HasPending()
      reads this
    {
      journal.Some? && journal.value.phase == Pending
    }

    /** A pending journal whose inputs the stored document refuses: no recovery can complete. */
    ghost predicate Stuck()
      reads this
    {
      HasPending() && !Applicable(Now(), journal.value.tx, portable)
    }

    /** What a completed recovery leaves in the stores; with a stuck journal none completes, and the
        stores stay as they are. */
    ghost function Recovered(): Content
      reads this
    {
      if HasPending() then Applied(Now(), journal.value.tx, portable) else Now()
    }

    // ----- Single writes -----

    method SaveJournal(next: Journal) returns (w: Write)
      modifies this`journal
      ensures journal == old(journal) || journal == Some(next)
      ensures w == Done ==> journal == Some(next)
    {
      w := Done;
      if * {
        journal := Some(next);
        if * { w := Failed; } else if * { w := Crashed; }
      } else if * { w := Failed; } else { w := Crashed; }
    }

    method RemoveJournal() returns (w: Write)
      modifies this`journal
      ensures journal == old(journal) || journal == None
      ensures w == Done ==> journal == None
    {
      w := Done;
      if * {
        journal := None;
        if * { w := Crashed; }
      } else if * { w := Failed; } else { w := Crashed; }
    }

    method SaveInputs(document: seq<SdkInput>) returns (w: Write)
      modifies this`inputs
      ensures inputs == old(inputs) || inputs == document
      ensures w == Done ==> inputs == document
    {
      w := Done;
      if * {
        inputs := document;
        if * { w := Failed; } else if * { w := Crashed; }
      } else if * { w := Failed; } else { w := Crashed; }
    }

    /** `import_mcp_configs_atomically`: nothing is written for an empty list. */
    method ImportServers(incoming: seq<Server>) returns (w: Write)
      modifies this`servers
      ensures servers == old(servers) || servers == Upsert(old(servers), incoming)
      ensures w == Done ==> servers == Upsert(old(servers), incoming)
      ensures w == Failed ==> servers == old(servers)
      ensures w == Done ==> HoldsServers(old(servers), servers, incoming)
    {
      UpsertHoldsServers(servers, incoming);
      if incoming == [] { return Done; }
      var merged := servers;
      var i := 0;
      while i < |incoming|
        invariant 0 <= i <= |incoming|
        invariant Upsert(merged, incoming[i..]) == Upsert(servers, incoming)
      {
        merged := merged[incoming[i].name := incoming[i].body];
        assert incoming[i..][1..] == incoming[i + 1..];
        i := i + 1;
      }
      w := Done;
      if * {
        servers := merged;
        if * { w := Crashed; }
      } else if * { w := Failed; } else { w := Crashed; }
    }

    /** `replace_input_definitions_config_only_locked`. */
    method ReplaceInputs(definitions: seq<InputDefinition>) returns (r: Replacement)
      modifies this`inputs
      ensures !Acceptable(definitions, portable) ==> r.Unchanged?
      ensures r.Replaced? ==> r.previous == old(inputs) && inputs == EncodeAll(NormalizedAll(definitions))
      ensures r.Unchanged? || r.Reverted? ==> inputs == old(inputs)
      ensures inputs == old(inputs)
           || (Acceptable(definitions, portable) && inputs == EncodeAll(NormalizedAll(definitions)))
    {
      var prepared := PreparePortable(definitions, portable);
      if prepared.Err? { return Unchanged; }
      if * { return Unchanged; }  // the document could not be read
      var previous := inputs;
      var w := SaveInputs(EncodeAll(prepared.value));
      match w {
        case Done => return Replaced(previous);
        case Crashed => return ReplacementCrashed;
        case Failed =>
          var undo := SaveInputs(previous);
          match undo {
            case Done => return Reverted;
            case Failed => return OutcomeUncertain;
            case Crashed => return ReplacementCrashed;
          }
      }
    }

    // ----- Recovery -----

    /** `recover_pending_config_import_for_instance`. Whatever happens to it, it never changes
        what recovery leads to; when it completes, the stores hold exactly that. */
    method Recover() returns (w: Write)
      requires Valid()
      modifies this
      ensures Valid()
      ensures Recovered() == old(Recovered())
      ensures w == Done ==> !HasPending() && Now() == old(Recovered())
      ensures w == Done && old(HasPending()) ==>
        && HoldsServers(old(servers), servers, old(journal).value.tx.servers)
        && HoldsInputs(old(inputs), inputs, old(journal).value.tx.inputs)
      ensures old(Stuck()) ==> w == Failed && Now() == old(Now()) && journal == old(journal)
      ensures Stuck() <==> old(Stuck())
    {
      if * { return Failed; }  // the journal could not be read
      if journal.None? { return Done; }
      var tx := journal.value.tx;
      if journal.value.phase != Pending {
        var cleared := RemoveJournal();
        return if cleared == Crashed then Crashed else Done;
      }
      ghost var before := Now();
      AppliedStaysReplayable(before, tx, portable);
      var prepared := PreparePortable(tx.inputs, portable);
      if prepared.Err? { return Failed; }
      AppliedHolds(before, tx, portable);
      if * { return Failed; }  // server preparation or preflight
      if tx.inputs != [] {
        if * { return Failed; }  // the current definitions could not be read
        var merged := Merge(DecodeAll(inputs), prepared.value);
        assert merged == MergedDefinitions(before.inputs, tx.inputs);
        var r := ReplaceInputs(merged);
        assert Between(before, Now(), tx, portable);
        RedoAbsorbs(before, Now(), tx, portable);
        if r.ReplacementCrashed? { return Crashed; }
        if !r.Replaced? { return Failed; }
      }
      ghost var middle := Now();
      w := ImportServers(tx.servers);
      assert Between(before, Now(), tx, portable);
      RedoAbsorbs(before, Now(), tx, portable);
      if w != Done { return; }
      w := SaveJournal(Journal(Committed, tx));
      if w != Done { return; }
      var cleared := RemoveJournal();
      return if cleared == Crashed then Crashed else Done;
    }

    // ----- Import -----

    /** `abort_config_import_transaction`, called with both stores as they were. */
    method Abort(tx: Transaction) returns (outcome: ImportOutcome)
      requires Valid() && journal == Some(Journal(Pending, tx))
      modifies this`journal
      ensures Valid()
      ensures outcome.RolledBack? || outcome.RollbackUnrecorded? || outcome.Interrupted?
      ensures outcome.RolledBack? ==> !HasPending()
      ensures !HasPending() || journal == old(journal)
    {
      var w := SaveJournal(Journal(Aborted, tx));
      if w == Failed { return RollbackUnrecorded; }
      if w == Crashed { return Interrupted; }
      var cleared := RemoveJournal();
      return if cleared == Crashed then Interrupted else RolledBack;
    }

    /** `finish_config_import_transaction`: the import has succeeded whatever happens here,
        short of a crash. */
    method Finish(tx: Transaction) returns (outcome: ImportOutcome)
      requires Valid() && journal == Some(Journal(Pending, tx))
      modifies this`journal
      ensures Valid()
      ensures outcome.Imported? || outcome.Interrupted?
      ensures !HasPending() || journal == old(journal)
    {
      var w := SaveJournal(Journal(Committed, tx));
      if w == Crashed { return Interrupted; }
      if w == Failed { return Imported; }
      var cleared := RemoveJournal();
      return if cleared == Crashed then Interrupted else Imported;
    }

    /** `import_servers_and_inputs`: crash-atomic. Whatever fails and wherever it is cut short,
        recovery leads to the stores as they were or to the whole import; to the whole import
        when success was returned or the journal retained, and to the stores as they were when
        the import was refused or rolled back. */
    method Import(incoming: seq<Server>, definitions: seq<InputDefinition>) returns (outcome: ImportOutcome)
      requires Valid()
      requires Replayable(Recovered(), Transaction(incoming, NormalizedAll(definitions)))
      modifies this
      ensures Valid()
      ensures old(Stuck()) ==> outcome.Rejected? && Now() == old(Now()) && journal == old(journal)
      ensures Stuck() && !old(Stuck()) ==>
        && (outcome.RollbackUnrecorded? || outcome.JournalNotPrepared? || outcome.Interrupted?)
        && !Applicable(old(Recovered()), Transaction(incoming, NormalizedAll(definitions)), portable)
      ensures !Acceptable(definitions, portable) ==> outcome.Rejected?
      ensures var was, tx := old(Recovered()), Transaction(incoming, NormalizedAll(definitions));
        && (Recovered() == was || Recovered() == Applied(was, tx, portable))
        && (outcome.Imported? ==> Applicable(was, tx, portable) && Recovered() == Applied(was, tx, portable))
        && (outcome.Retained? ==> HasPending() && Recovered() == Applied(was, tx, portable))
        && (outcome.Rejected? || outcome.RolledBack? ==> Recovered() == was)
      ensures outcome.Imported? || outcome.RolledBack? ==> Now() == Recovered()
      ensures outcome.Imported? ==>
        && HoldsServers(old(Recovered()).servers, servers, incoming)
        && HoldsInputs(old(Recovered()).inputs, inputs, NormalizedAll(definitions))
    {
      var prepared := PreparePortable(definitions, portable);
      if prepared.Err? { return Rejected; }
      if * { return Rejected; }  // server preparation
      PrepareIdempotent(definitions, portable);
      var tx := Transaction(incoming, prepared.value);
      var recovery := Recover();
      if recovery == Failed { return Rejected; }
      if recovery == Crashed { return Interrupted; }
      if tx.inputs != [] {
        if * { return Rejected; }  // the current definitions could not be read
      }
      AppliedHolds(Now(), tx, portable);
      if tx.servers == [] && tx.inputs == [] { return Imported; }
      if * { return Rejected; }  // preflight
      outcome := Run(tx);
    }

    /** The import from its journal on, with no pending journal in the way. */
    method Run(tx: Transaction) returns (outcome: ImportOutcome)
      requires Valid() && !HasPending() && Prepared(tx, portable) && Replayable(Now(), tx)
      modifies this
      ensures Valid()
      ensures Recovered() == old(Now()) || Recovered() == Applied(old(Now()), tx, portable)
      ensures outcome.Imported? ==> Applicable(old(Now()), tx, portable)
      ensures outcome.Imported? ==> Recovered() == Now() == Applied(old(Now()), tx, portable)
      ensures outcome.Retained? ==> HasPending() && Recovered() == Applied(old(Now()), tx, portable)
      ensures outcome.RolledBack? ==> Recovered() == Now() == old(Now())
      ensures Stuck() ==> outcome.RollbackUnrecorded? || outcome.JournalNotPrepared? || outcome.Interrupted?
      ensures Stuck() ==> !Applicable(old(Now()), tx, portable)
      ensures !outcome.Rejected?
    {
      ghost var was := Now();
      var w := SaveJournal(Journal(Pending, tx));
      RedoAbsorbs(was, was, tx, portable);
      if w == Failed { return JournalNotPrepared; }
      if w == Crashed { return Interrupted; }
      if tx.inputs == [] { outcome := WriteServers(tx, None, was); } else { outcome := WriteInputs(tx); }
    }

    /** The first store of an import. */
    method WriteInputs(tx: Transaction) returns (outcome: ImportOutcome)
      requires Valid() && journal == Some(Journal(Pending, tx)) && tx.inputs != []
      modifies this
      ensures Valid()
      ensures Recovered() == old(Now()) || Recovered() == Applied(old(Now()), tx, portable)
      ensures outcome.Imported? ==> Applicable(old(Now()), tx, portable)
      ensures outcome.Imported? ==> Recovered() == Now() == Applied(old(Now()), tx, portable)
      ensures outcome.Retained? ==> HasPending() && Recovered() == Applied(old(Now()), tx, portable)
      ensures outcome.RolledBack? ==> Recovered() == Now() == old(Now())
      ensures Stuck() ==> outcome.RollbackUnrecorded? || outcome.Interrupted?
      ensures Stuck() ==> !Applicable(old(Now()), tx, portable)
      ensures !outcome.Rejected?
    {
      ghost var was := Now();
      AppliedStaysReplayable(was, tx, portable);
      var merged := Merge(DecodeAll(inputs), tx.inputs);
      var r := ReplaceInputs(merged);
      assert Between(was, Now(), tx, portable);
      RedoAbsorbs(was, Now(), tx, portable);
      match r {
        case Replaced(previous) => outcome := WriteServers(tx, Some(previous), was);
        case Unchanged => outcome := Abort(tx);
        case Reverted => outcome := Abort(tx);
        case OutcomeUncertain => return Retained;
        case ReplacementCrashed => return Interrupted;
      }
    }

    /** The second store of an import, with its compensation of the first. */
    method WriteServers(tx: Transaction, snapshot: Option<seq<SdkInput>>, ghost was: Content)
      returns (outcome: ImportOutcome)
      requires snapshot == if tx.inputs == [] then None else Some(was.inputs)
      requires Valid() && journal == Some(Journal(Pending, tx)) && Replayable(was, tx)
      requires Applicable(was, tx, portable)
      requires Now() == Content(Applied(was, tx, portable).inputs, was.servers)
      modifies this
      ensures Valid()
      ensures Recovered() == was || Recovered() == Applied(was, tx, portable)
      ensures outcome.Imported? ==> Recovered() == Now() == Applied(was, tx, portable)
      ensures outcome.Retained? ==> HasPending() && Recovered() == Applied(was, tx, portable)
      ensures outcome.RolledBack? ==> Recovered() == Now() == was
      ensures !outcome.Rejected? && !Stuck()
    {
      AppliedStaysReplayable(was, tx, portable);
      RedoAbsorbs(was, Now(), tx, portable);
      RedoAbsorbs(was, was, tx, portable);
      var w := ImportServers(tx.servers);
      RedoAbsorbs(was, Now(), tx, portable);
      if w == Crashed { return Interrupted; }
      if w == Failed {
        if snapshot.Some? {
          var undo := SaveInputs(snapshot.value);
          RedoAbsorbs(was, Now(), tx, portable);
          if undo == Failed { return Retained; }
          if undo == Crashed { return Interrupted; }
        }
        outcome := Abort(tx);
        return;
      }
      outcome := Finish(tx);
    }

    /** A session: any imports, each tried once, with recoveries and restarts in between and
        crashes anywhere. It is always as if some of the imports had happened completely, in
        order, and the others not at all: all those that reported success, none of those that
        were refused or rolled back. */
    method Session(requests: seq<Request>) returns (outcomes: seq<ImportOutcome>, ghost included: seq<bool>)
      requires Valid()
      requires SessionReplayable(Recovered(), requests, portable)
      modifies this
      ensures Valid() && |included| == |outcomes| == |requests|
      ensures Recovered() == Folded(old(Recovered()), requests, included, portable)
      ensures forall i :: 0 <= i < |requests| ==> Included(outcomes[i], included[i])
      ensures forall i :: 0 <= i < |requests| && outcomes[i].Imported? ==>
        TookEffect(old(Recovered()), requests, included, i, portable)
    {
      outcomes, included := [], [];
      ghost var base := Recovered();
      for i := 0 to |requests|
        invariant |included| == |outcomes| == i
        invariant Valid()
        invariant Recovered() == Folded(base, requests[..i], included, portable)
        invariant forall j :: 0 <= j < i ==> Included(outcomes[j], included[j])
        invariant forall j :: 0 <= j < i && outcomes[j].Imported? ==> TookEffect(base, requests, included, j, portable)
      {
        var outcome, whole := OneRequest(requests, i, base, included);
        forall j | 0 <= j < i && outcomes[j].Imported?
          ensures TookEffect(base, requests, included + [whole], j, portable)
        {
          TookEffectStays(base, requests, included, whole, j, portable);
        }
        outcomes, included := outcomes + [outcome], included + [whole];
      }
      assert requests[..|requests|] == requests;
    }

    /** One request of a session, after any recoveries. */
    method OneRequest(requests: seq<Request>, i: nat, ghost base: Content, ghost included: seq<bool>)
      returns (outcome: ImportOutcome, ghost whole: bool)
      requires Valid() && i < |requests| && |included| == i && SessionReplayable(base, requests, portable)
      requires Recovered() == Folded(base, requests[..i], included, portable)
      modifies this
      ensures Valid() && Recovered() == Folded(base, requests[..i + 1], included + [whole], portable)
      ensures Included(outcome, whole)
      ensures outcome.Imported? ==> TookEffect(base, requests, included + [whole], i, portable)
    {
      Recoveries();
      ghost var was := Recovered();
      RequestReplayable(base, requests, i, included, portable);
      outcome := Import(requests[i].servers, requests[i].definitions);
      whole := outcome.Imported? || outcome.Retained? || Recovered() != was;
      FoldedNext(base, requests, i, included, whole, portable);
      assert (included + [whole])[..i] == included && (included + [whole])[..i + 1] == included + [whole];
    }

    /** Any number of recoveries, each ended or cut short anywhere. */
    method Recoveries()
      requires Valid()
      modifies this
      ensures Valid() && Recovered() == old(Recovered())
    {
      var left: nat := *;
      while left > 0
        invariant Valid() && Recovered() == old(Recovered())
      {
        var recovery := Recover();
        left := left - 1;
      }
    }
  }

  lemma FoldedNext(base: Content, requests: seq<Request>, i: nat, included: seq<bool>, whole: bool,
                   portable: Portability)
    requires i < |requests| && |included| == i
    ensures var before := Folded(base, requests[..i], included, portable);
      Folded(base, requests[..i + 1], included + [whole], portable)
        == if whole then Applied(before, RequestedTransaction(requests[i]), portable) else before
  {
    assert requests[..i + 1][..i] == requests[..i] && (included + [whole])[..i] == included;
  }
}
