/** Buffered notice counters (src/stores/uiNoticeStore.ts).

    Impressions and help clicks are shown at once, buffered, and written in batches; a failed
    write puts its batch back. Writes are served and answered in any order, reads overlap them, and
    a write may be applied although its answer is a failure. */
module NoticeCounters {
  import opened Outcomes

  /** One counter of one notice. */
  datatype Key = Key(notice: string, help: bool)

  type Counts = map<Key, nat>

  function Sum(a: Counts, b: Counts): Counts {
    map k | k in a.Keys + b.Keys :: At(a, k) + At(b, k)
  }

  function Max(a: Counts, b: Counts): Counts {
    map k | k in a.Keys + b.Keys :: Larger(At(a, k), At(b, k))
  }

  /** A request in flight: what it adds, and the answer once it was served. */
  datatype Request = Request(isWrite: bool, added: Counts, reply: Option<Counts>)

  datatype State = State(
    pending: Counts, displayed: Counts, requests: seq<Request>, server: Counts,
    initial: Counts,          // what the server had counted before
    recorded: Counts,         // events since then
    phantom: Counts,          // events applied although their write was answered with a failure
    merged: bool)             // some answer has been merged

  datatype Step =
    | Record(key: Key)
    | Flush                             // threshold, help click, or window hidden
    | Dismiss(notice: string)           // carries that notice's counters at once
    | Fetch
    | Serve(request: nat)
    | Succeed(request: nat)
    | Fail(request: nat)

  function OfNotice(m: Counts, notice: string): Counts {
    map k | k in m && k.notice == notice :: m[k]
  }

  function NotOfNotice(m: Counts, notice: string): Counts {
    map k | k in m && k.notice != notice :: m[k]
  }

  ghost predicate Enabled(s: State, step: Step) {
    match step
    case Serve(i) => i < |s.requests| && s.requests[i].reply == None
    case Succeed(i) => i < |s.requests| && s.requests[i].reply.Some?
    case Fail(i) => i < |s.requests|
    case _ => true
  }

  function Apply(s: State, step: Step): State
    requires Enabled(s, step)
  {
    match step
    case Record(k) =>
      s.(pending := s.pending[k := At(s.pending, k) + 1], displayed := s.displayed[k := At(s.displayed, k) + 1],
         recorded := s.recorded[k := At(s.recorded, k) + 1])
    case Flush => s.(pending := map[], requests := s.requests + [Request(true, s.pending, None)])
    case Dismiss(n) =>
      s.(pending := NotOfNotice(s.pending, n), requests := s.requests + [Request(true, OfNotice(s.pending, n), None)])
    case Fetch => s.(requests := s.requests + [Request(false, map[], None)])
    case Serve(i) =>
      var server := Sum(s.server, s.requests[i].added);
      s.(server := server, requests := s.requests[i := s.requests[i].(reply := Some(server))])
    case Succeed(i) =>
      s.(displayed := Max(s.requests[i].reply.value, s.displayed), requests := WithoutAt(s.requests, i), merged := true)
    case Fail(i) =>
      var r := s.requests[i];
      s.(pending := Sum(s.pending, r.added), requests := WithoutAt(s.requests, i),
         phantom := if r.reply.Some? then Sum(s.phantom, r.added) else s.phantom)
  }

  /** A flush sends everything pending and leaves nothing; a dismissal does so for its notice only. */
  lemma SendingTakes(s: State, notice: string, k: Key)
    ensures var s' := Apply(s, Flush);
      && |s'.requests| == |s.requests| + 1 && s'.requests[..|s.requests|] == s.requests && At(s'.pending, k) == 0
      && var sent := s'.requests[|s.requests|]; sent.reply == None && At(sent.added, k) == At(s.pending, k)
    ensures var s' := Apply(s, Dismiss(notice));
      && |s'.requests| == |s.requests| + 1 && s'.requests[..|s.requests|] == s.requests
      && At(s'.pending, k) == (if k.notice == notice then 0 else At(s.pending, k))
      && var sent := s'.requests[|s.requests|];
        sent.reply == None && At(sent.added, k) == if k.notice == notice then At(s.pending, k) else 0
  {}

  /** An answer that succeeds is merged, and one that fails puts its events back. */
  lemma AnswersSettle(s: State, i: nat, k: Key)
    requires i < |s.requests|
    ensures s.requests[i].reply.Some? ==>
      At(Apply(s, Succeed(i)).displayed, k) == Larger(At(s.requests[i].reply.value, k), At(s.displayed, k))
    ensures At(Apply(s, Fail(i)).pending, k) == At(s.pending, k) + At(s.requests[i].added, k)
    ensures s.requests[i].reply == None ==>
      && At(Apply(s, Serve(i)).server, k) == At(s.server, k) + At(s.requests[i].added, k)
      && Apply(s, Serve(i)).requests[i].reply == Some(Apply(s, Serve(i)).server)
  {}

  // ---------- Accounting ----------

  /** What requests not served yet will add. */
  function InFlight(rs: seq<Request>, k: Key): nat {
    if rs == [] then 0
    else
      var last := rs[|rs| - 1];
      InFlight(rs[..|rs| - 1], k) + if last.reply.None? then At(last.added, k) else 0
  }

  function Adds(r: Request, k: Key): nat {
    if r.reply.None? then At(r.added, k) else 0
  }

  lemma {:induction false} InFlightSplit(a: seq<Request>, b: seq<Request>, k: Key)
    ensures InFlight(a + b, k) == InFlight(a, k) + InFlight(b, k)
  {
    if b == [] {
      assert a + b == a;
    } else {
      assert (a + b)[..|a + b| - 1] == a + b[..|b| - 1];
      InFlightSplit(a, b[..|b| - 1], k);
    }
  }

  lemma InFlightParts(rs: seq<Request>, i: nat, r: Request, k: Key)
    requires i < |rs|
    ensures InFlight(rs, k) == InFlight(WithoutAt(rs, i), k) + Adds(rs[i], k)
    ensures InFlight(rs[i := r], k) == InFlight(WithoutAt(rs, i), k) + Adds(r, k)
    ensures InFlight(rs + [r], k) == InFlight(rs, k) + Adds(r, k)
  {
    assert rs == rs[..i] + [rs[i]] + rs[i + 1..];
    assert rs[i := r] == rs[..i] + [r] + rs[i + 1..];
    InFlightSplit(rs[..i] + [rs[i]], rs[i + 1..], k);
    InFlightSplit(rs[..i] + [r], rs[i + 1..], k);
    InFlightSplit(rs[..i], rs[i + 1..], k);
    InFlightSplit(rs[..i], [rs[i]], k);
    InFlightSplit(rs[..i], [r], k);
    InFlightSplit(rs, [r], k);
  }

  lemma InFlightAfterSending(rs: seq<Request>, r: Request, k: Key)
    ensures InFlight(rs + [r], k) == InFlight(rs, k) + Adds(r, k)
  {
    InFlightSplit(rs, [r], k);
  }

  /** No event is lost; only a write that was applied and answered with a failure counts twice. */
  ghost predicate Accounted(s: State, k: Key) {
    At(s.initial, k) + At(s.recorded, k) + At(s.phantom, k)
      == At(s.pending, k) + InFlight(s.requests, k) + At(s.server, k)
  }

  lemma StepKeepsAccounts(s: State, step: Step, k: Key)
    requires Accounted(s, k) && Enabled(s, step)
    ensures Accounted(Apply(s, step), k)
  {
    match step
    case Record(_) =>
    case Flush => InFlightAfterSending(s.requests, Request(true, s.pending, None), k);
    case Dismiss(n) => InFlightAfterSending(s.requests, Request(true, OfNotice(s.pending, n), None), k);
    case Fetch => InFlightAfterSending(s.requests, Request(false, map[], None), k);
    case Serve(i) => ServiceKeepsAccounts(s, i, k);
    case Succeed(i) => SuccessKeepsAccounts(s, i, k);
    case Fail(i) => FailureKeepsAccounts(s, i, k);
  }

  lemma SumAt(a: Counts, b: Counts, k: Key)
    ensures At(Sum(a, b), k) == At(a, k) + At(b, k)
  {}

  lemma ServiceKeepsAccounts(s: State, i: nat, k: Key)
    requires Accounted(s, k) && Enabled(s, Serve(i))
    ensures Accounted(Apply(s, Serve(i)), k)
  {
    InFlightParts(s.requests, i, Apply(s, Serve(i)).requests[i], k);
  }

  lemma SuccessKeepsAccounts(s: State, i: nat, k: Key)
    requires Accounted(s, k) && Enabled(s, Succeed(i))
    ensures Accounted(Apply(s, Succeed(i)), k)
  {
    InFlightParts(s.requests, i, s.requests[i], k);
  }

  lemma FailureKeepsAccounts(s: State, i: nat, k: Key)
    requires Accounted(s, k) && Enabled(s, Fail(i))
    ensures Accounted(Apply(s, Fail(i)), k)
  {
    SumAt(s.pending, s.requests[i].added, k);
    SumAt(s.phantom, s.requests[i].added, k);
    InFlightParts(s.requests, i, s.requests[i], k);
  }

  // ---------- What is shown ----------

  /** Answers lie between the count at the start and the count now. */
  ghost predicate ReplyOk(s: State, r: Request, k: Key) {
    r.reply.Some? ==> At(s.initial, k) <= At(r.reply.value, k) <= At(s.server, k)
  }

  ghost predicate RepliesOk(s: State, k: Key) {
    && At(s.initial, k) <= At(s.server, k)
    && forall i :: 0 <= i < |s.requests| ==> ReplyOk(s, s.requests[i], k)
  }

  /** Nothing more is shown than can be accounted for. */
  ghost predicate DisplayOk(s: State, k: Key) {
    At(s.displayed, k) <= At(s.pending, k) + InFlight(s.requests, k) + At(s.server, k)
  }

  ghost predicate ShownOk(s: State, k: Key) {
    RepliesOk(s, k) && DisplayOk(s, k)
  }

  lemma AnswerKeepsReplies(s: State, s': State, answered: nat, k: Key)
    requires RepliesOk(s, k) && answered < |s.requests| && s'.requests == WithoutAt(s.requests, answered)
    requires s'.server == s.server && s'.initial == s.initial
    ensures RepliesOk(s', k)
  {
    forall i | 0 <= i < |s'.requests| ensures ReplyOk(s', s'.requests[i], k) {
      var before := if i < answered then i else i + 1;
      assert s'.requests[i] == s.requests[before] && ReplyOk(s, s.requests[before], k);
    }
  }

  lemma ServiceKeepsReplies(s: State, i: nat, k: Key)
    requires RepliesOk(s, k) && Enabled(s, Serve(i))
    ensures RepliesOk(Apply(s, Serve(i)), k)
  {
    var s' := Apply(s, Serve(i));
    assert At(s.server, k) <= At(s'.server, k);
    forall j | 0 <= j < |s'.requests| ensures ReplyOk(s', s'.requests[j], k) {
      assert ReplyOk(s, s.requests[j], k);
    }
  }

  lemma SendingKeepsReplies(s: State, step: Step, k: Key)
    requires RepliesOk(s, k) && (step.Flush? || step.Dismiss? || step.Fetch? || step.Record?)
    ensures RepliesOk(Apply(s, step), k)
  {
    var s' := Apply(s, step);
    forall i | 0 <= i < |s'.requests| ensures ReplyOk(s', s'.requests[i], k) {
      if i < |s.requests| { assert s'.requests[i] == s.requests[i] && ReplyOk(s, s.requests[i], k); }
    }
  }

  lemma StepKeepsReplies(s: State, step: Step, k: Key)
    requires RepliesOk(s, k) && Enabled(s, step)
    ensures RepliesOk(Apply(s, step), k)
  {
    match step
    case Serve(i) => ServiceKeepsReplies(s, i, k);
    case Succeed(i) => AnswerKeepsReplies(s, Apply(s, step), i, k);
    case Fail(i) => AnswerKeepsReplies(s, Apply(s, step), i, k);
    case _ => SendingKeepsReplies(s, step, k);
  }

  lemma StepKeepsDisplay(s: State, step: Step, k: Key)
    requires ShownOk(s, k) && Enabled(s, step)
    ensures DisplayOk(Apply(s, step), k)
  {
    match step
    case Record(_) =>
    case Flush => InFlightAfterSending(s.requests, Request(true, s.pending, None), k);
    case Dismiss(n) => InFlightAfterSending(s.requests, Request(true, OfNotice(s.pending, n), None), k);
    case Fetch => InFlightAfterSending(s.requests, Request(false, map[], None), k);
    case Serve(i) => InFlightParts(s.requests, i, Apply(s, step).requests[i], k);
    case Succeed(i) =>
      assert ReplyOk(s, s.requests[i], k);
      InFlightParts(s.requests, i, s.requests[i], k);
    case Fail(i) => InFlightParts(s.requests, i, s.requests[i], k);
  }

  /** A request whose answer will show the server's count of today, or put events back. */
  ghost predicate Catches(s: State, i: int, k: Key) {
    && 0 <= i < |s.requests| && At(s.requests[i].added, k) > 0
    && (s.requests[i].reply.Some? ==> At(s.requests[i].reply.value, k) == At(s.server, k))
  }

  /** Whatever is not shown yet is still on its way. */
  ghost predicate CatchesUp(s: State, k: Key) {
    || At(s.server, k) <= (if s.merged then At(s.displayed, k) else At(s.initial, k))
    || At(s.pending, k) > 0
    || exists i :: Catches(s, i, k)
  }

  /** A request that has been answered is gone; the others keep what they were about to show. */
  lemma AnswerKeepsOthersCatching(s: State, s': State, i: nat, answered: nat, k: Key)
    requires Catches(s, i, k) && answered < |s.requests| && answered != i
    requires s'.requests == WithoutAt(s.requests, answered) && At(s'.server, k) == At(s.server, k)
    ensures Catches(s', if answered < i then i - 1 else i, k)
  {}

  lemma SuccessKeepsCatchingUp(s: State, i: nat, k: Key)
    requires CatchesUp(s, k) && RepliesOk(s, k) && Enabled(s, Succeed(i))
    ensures CatchesUp(Apply(s, Succeed(i)), k)
  {
    var s' := Apply(s, Succeed(i));
    assert ReplyOk(s, s.requests[i], k);
    if exists j :: Catches(s, j, k) {
      var j :| Catches(s, j, k);
      if j != i { AnswerKeepsOthersCatching(s, s', j, i, k); }
    }
  }

  lemma FailureKeepsCatchingUp(s: State, i: nat, k: Key)
    requires CatchesUp(s, k) && Enabled(s, Fail(i))
    ensures CatchesUp(Apply(s, Fail(i)), k)
  {
    var s' := Apply(s, Fail(i));
    if exists j :: Catches(s, j, k) {
      var j :| Catches(s, j, k);
      if j != i { AnswerKeepsOthersCatching(s, s', j, i, k); }
    }
  }

  lemma ServiceKeepsCatchingUp(s: State, i: nat, k: Key)
    requires CatchesUp(s, k) && Enabled(s, Serve(i))
    ensures CatchesUp(Apply(s, Serve(i)), k)
  {
    var s' := Apply(s, Serve(i));
    if At(s.requests[i].added, k) > 0 {
      assert Catches(s', i, k);
    } else if exists j :: Catches(s, j, k) {
      var j :| Catches(s, j, k);
      assert Catches(s', j, k);
    }
  }

  lemma SendingKeepsCatchingUp(s: State, step: Step, k: Key)
    requires CatchesUp(s, k) && (step.Flush? || step.Dismiss? || step.Fetch? || step.Record?)
    ensures CatchesUp(Apply(s, step), k)
  {
    var s' := Apply(s, step);
    if exists j :: Catches(s, j, k) {
      var j :| Catches(s, j, k);
      assert Catches(s', j, k);
    } else if At(s'.pending, k) == 0 < At(s.pending, k) {
      assert Catches(s', |s.requests|, k);
    }
  }

  lemma StepKeepsCatchingUp(s: State, step: Step, k: Key)
    requires CatchesUp(s, k) && ShownOk(s, k) && Enabled(s, step)
    ensures CatchesUp(Apply(s, step), k)
  {
    match step
    case Serve(i) => ServiceKeepsCatchingUp(s, i, k);
    case Succeed(i) => SuccessKeepsCatchingUp(s, i, k);
    case Fail(i) => FailureKeepsCatchingUp(s, i, k);
    case _ => SendingKeepsCatchingUp(s, step, k);
  }

  // ---------- Runs ----------

  ghost predicate Inv(s: State) {
    forall k :: Accounted(s, k) && ShownOk(s, k) && CatchesUp(s, k)
  }

  ghost predicate Init(s: State) {
    && s.pending == map[] && s.displayed == map[] && s.requests == [] && s.server == s.initial
    && s.recorded == map[] && s.phantom == map[] && !s.merged
  }

  ghost predicate IsStep(s: State, step: Step, s': State) {
    Enabled(s, step) && s' == Apply(s, step)
  }

  ghost predicate IsRun(states: seq<State>, steps: seq<Step>) {
    && |states| == |steps| + 1
    && Init(states[0])
    && forall i {:trigger steps[i]} :: 0 <= i < |steps| ==> IsStep(states[i], steps[i], states[i + 1])
  }

  lemma {:induction false} RunKeepsInv(states: seq<State>, steps: seq<Step>, i: nat)
    requires IsRun(states, steps) && i < |states|
    ensures Inv(states[i])
  {
    if i > 0 {
      RunKeepsInv(states, steps, i - 1);
      var s, step := states[i - 1], steps[i - 1];
      forall k ensures Accounted(states[i], k) && ShownOk(states[i], k) && CatchesUp(states[i], k) {
        assert Accounted(s, k) && ShownOk(s, k) && CatchesUp(s, k);
        StepKeepsAccounts(s, step, k);
        StepKeepsReplies(s, step, k);
        StepKeepsDisplay(s, step, k);
        StepKeepsCatchingUp(s, step, k);
      }
    }
  }

  /** At no time is more shown than the server has, or will have, counted. */
  lemma NeverShowsMore(states: seq<State>, steps: seq<Step>, i: nat, k: Key)
    requires IsRun(states, steps) && i < |states|
    ensures At(states[i].displayed, k) <=
      At(states[i].initial, k) + At(states[i].recorded, k) + At(states[i].phantom, k)
  {
    RunKeepsInv(states, steps, i);
    assert Accounted(states[i], k) && ShownOk(states[i], k);
  }

  /** Once nothing is pending or in flight and some answer was merged, the display shows the
      server's count, which is every event recorded and every event applied twice. */
  lemma QuietIsExact(states: seq<State>, steps: seq<Step>, i: nat, k: Key)
    requires IsRun(states, steps) && i < |states|
    requires At(states[i].pending, k) == 0 && states[i].requests == [] && states[i].merged
    ensures At(states[i].displayed, k) == At(states[i].server, k)
    ensures At(states[i].server, k) == At(states[i].initial, k) + At(states[i].recorded, k) + At(states[i].phantom, k)
  {
    RunKeepsInv(states, steps, i);
    assert Accounted(states[i], k) && ShownOk(states[i], k) && CatchesUp(states[i], k);
  }

  // ---------- The buffer itself ----------

  datatype Counters = Counters(impressions: nat, helpClicks: nat)

  function CountersAt(m: map<string, Counters>, notice: string): Counters {
    if notice in m then m[notice] else Counters(0, 0)
  }

  function Greater(a: Counters, b: Counters): Counters {
    Counters(Larger(a.impressions, b.impressions), Larger(a.helpClicks, b.helpClicks))
  }

  function CountOf(m: map<string, Counters>, k: Key): nat {
    var c := CountersAt(m, k.notice);
    if k.help then c.helpClicks else c.impressions
  }

  /** The buffer and the shown entries. Every method states what becomes of every counter, in the
      terms of the steps above. */
  class NoticeStore {
    var pending: map<string, Counters>
    var entries: map<string, Counters>

    constructor ()
      ensures pending == map[] && entries == map[]
    {
      pending, entries := map[], map[];
    }

    method RecordImpression(notice: string)
      modifies this
      ensures forall k :: CountOf(pending, k) == old(CountOf(pending, k)) + if k == Key(notice, false) then 1 else 0
      ensures forall k :: CountOf(entries, k) == old(CountOf(entries, k)) + if k == Key(notice, false) then 1 else 0
    {
      var counters, entry := CountersAt(pending, notice), CountersAt(entries, notice);
      pending := pending[notice := counters.(impressions := counters.impressions + 1)];
      entries := entries[notice := entry.(impressions := entry.impressions + 1)];
    }

    method RecordHelpClick(notice: string)
      modifies this
      ensures forall k :: CountOf(pending, k) == old(CountOf(pending, k)) + if k == Key(notice, true) then 1 else 0
      ensures forall k :: CountOf(entries, k) == old(CountOf(entries, k)) + if k == Key(notice, true) then 1 else 0
    {
      var counters, entry := CountersAt(pending, notice), CountersAt(entries, notice);
      pending := pending[notice := counters.(helpClicks := counters.helpClicks + 1)];
      entries := entries[notice := entry.(helpClicks := entry.helpClicks + 1)];
    }

    method TakePending(notice: string) returns (patch: Counters)
      modifies this`pending
      ensures patch == old(CountersAt(pending, notice))
      ensures forall k :: CountOf(pending, k) == if k.notice == notice then 0 else old(CountOf(pending, k))
      ensures pending.Keys == old(pending.Keys) - {notice}
    {
      patch := CountersAt(pending, notice);
      pending := pending - {notice};
    }

    /** Everything pending is taken; a notice with nothing to add is not sent. */
    method TakeAllPending() returns (updates: map<string, Counters>)
      modifies this`pending
      ensures forall k :: CountOf(updates, k) == old(CountOf(pending, k))
      ensures forall n :: n in updates ==> updates[n] != Counters(0, 0)
      ensures pending == map[]
    {
      updates := map[];
      while pending.Keys != {}
        invariant forall k :: CountOf(updates, k) + CountOf(pending, k) == old(CountOf(pending, k))
        invariant forall n :: n in updates ==> updates[n] != Counters(0, 0) && n !in pending
        decreases |pending.Keys|
      {
        var n :| n in pending;
        var patch := TakePending(n);
        if patch.impressions > 0 || patch.helpClicks > 0 { updates := updates[n := patch]; }
      }
      assert pending == map[];
    }

    method RestorePending(updates: map<string, Counters>)
      modifies this`pending
      ensures forall k :: CountOf(pending, k) == old(CountOf(pending, k)) + CountOf(updates, k)
    {
      var left := updates;
      while left.Keys != {}
        invariant forall k :: CountOf(pending, k) + CountOf(left, k) == old(CountOf(pending, k)) + CountOf(updates, k)
        decreases |left.Keys|
      {
        var n :| n in left;
        var counters := CountersAt(pending, n);
        counters := counters.(impressions := counters.impressions + left[n].impressions);
        counters := counters.(helpClicks := counters.helpClicks + left[n].helpClicks);
        pending, left := pending[n := counters], left - {n};
      }
      assert left == map[];
    }

    /** Counters only grow: neither side's events are lost or added twice. */
    method MergeServerEntries(incoming: map<string, Counters>)
      modifies this`entries
      ensures forall k :: CountOf(entries, k) == Larger(CountOf(incoming, k), old(CountOf(entries, k)))
      ensures entries.Keys == incoming.Keys + old(entries.Keys)
    {
      var merged, left := incoming, entries.Keys;
      while left != {}
        invariant left <= entries.Keys && entries == old(entries)
        invariant merged.Keys == incoming.Keys + (entries.Keys - left)
        invariant forall n :: CountersAt(merged, n) == CountersAt(incoming, n) || n !in left
        invariant forall n :: n !in left ==>
          CountersAt(merged, n) == Greater(CountersAt(incoming, n), CountersAt(entries, n))
      {
        var n :| n in left;
        merged, left := merged[n := Greater(CountersAt(incoming, n), entries[n])], left - {n};
      }
      entries := merged;
    }
  }
}
