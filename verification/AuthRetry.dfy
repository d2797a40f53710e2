/** Retrying the exchange of a reconnect credential, and the seeded first answer
    (src-tauri/src/commands/connection.rs 59-61, 1960-2132 and 2134-2187). */
module AuthRetry {
  import opened Outcomes

  /** How one exchange ends; `Stop` stands for a missing session, a changed Context, and every
      other permanent error. */
  datatype Exchange = Token(value: string) | Transient | Stop

  /** The credential handed to the SDK: a token, or an empty dictionary. */
  datatype Auth = Credential(token: string) | Empty

  /** The longest representable duration. */
  const MAX_DURATION: nat := 0xFFFF_FFFF_FFFF_FFFF * 1_000_000_000 + 999_999_999

  function Min(a: nat, b: nat): nat {
    if a < b then a else b
  }

  function SaturatingDouble(d: nat): nat {
    Min(d * 2, MAX_DURATION)
  }

  function Pow2(n: nat): (r: nat)
    ensures r > 0
  {
    if n == 0 then 1 else 2 * Pow2(n - 1)
  }

  /** `is_power_of_two`, on positive numbers. */
  predicate IsPowerOfTwo(n: nat) {
    n == 1 || (n > 1 && n % 2 == 0 && IsPowerOfTwo(n / 2))
  }

  function FloorLog2(n: nat): nat
    requires n > 0
  {
    if n == 1 then 0 else 1 + FloorLog2(n / 2)
  }

  /** The delay before the exchange after the n-th transient one, counted from zero. */
  function Wait(initial: nat, max: nat, n: nat): nat {
    if n == 0 then initial else if initial * Pow2(n) < max then initial * Pow2(n) else max
  }

  lemma {:induction false} FloorLog2Bounds(n: nat)
    requires n > 0
    ensures Pow2(FloorLog2(n)) <= n < 2 * Pow2(FloorLog2(n))
  {
    if n > 1 { FloorLog2Bounds(n / 2); }
  }

  lemma {:induction false} PowerOfTwoIsPow2(n: nat)
    ensures IsPowerOfTwo(n) <==> n > 0 && n == Pow2(FloorLog2(n))
  {
    if n > 1 { PowerOfTwoIsPow2(n / 2); }
  }

  lemma {:induction false} Pow2Grows(a: nat, b: nat)
    requires a < b
    ensures 2 * Pow2(a) <= Pow2(b)
  {
    if a + 1 < b { Pow2Grows(a, b - 1); }
  }

  /** The logarithm steps up exactly at the powers of two. */
  lemma LogStepsAtPowers(n: nat)
    requires n > 0
    ensures FloorLog2(n + 1) == FloorLog2(n) + if IsPowerOfTwo(n + 1) then 1 else 0
  {
    var a, b := FloorLog2(n), FloorLog2(n + 1);
    FloorLog2Bounds(n);
    FloorLog2Bounds(n + 1);
    PowerOfTwoIsPow2(n + 1);
    if b < a { Pow2Grows(b, a); }
    if a < b {
      Pow2Grows(a, b);
      if a + 1 < b { Pow2Grows(a + 1, b); }
    }
  }

  lemma DoublingStep(initial: nat, max: nat, n: nat)
    requires initial <= MAX_DURATION && max <= MAX_DURATION
    ensures Min(SaturatingDouble(Wait(initial, max, n)), max) == Wait(initial, max, n + 1)
  {
    assert initial * Pow2(n + 1) == 2 * (initial * Pow2(n));
  }

  /** With a sensible pair of delays, a closed form without a special first case. */
  lemma WaitIsCapped(initial: nat, max: nat, n: nat)
    requires initial <= max
    ensures Wait(initial, max, n) == Min(initial * Pow2(n), max)
  {}

  /** Of the first `n` attempts, those at a power of two warned. */
  ghost predicate Sampled(warned: seq<nat>, n: nat) {
    && (forall a :: a in warned <==> 1 <= a <= n && IsPowerOfTwo(a))
    && |warned| == if n == 0 then 0 else FloorLog2(n) + 1
  }

  lemma SampledNext(warned: seq<nat>, n: nat)
    requires Sampled(warned, n)
    ensures Sampled(if IsPowerOfTwo(n + 1) then warned + [n + 1] else warned, n + 1)
  {
    if n > 0 { LogStepsAtPowers(n); }
  }

  /** The retry loop, given how each exchange will end. No result means it would still be
      retrying. `waits` are the delays slept, `warned` the attempts that logged a warning. */
  method Retry(outcomes: seq<Exchange>, initial: nat, max: nat)
    returns (auth: Option<Auth>, waits: seq<nat>, warned: seq<nat>)
    requires initial <= MAX_DURATION && max <= MAX_DURATION
    ensures |waits| <= |outcomes| && forall i :: 0 <= i < |waits| ==> outcomes[i] == Transient
    ensures auth.None? <==> |waits| == |outcomes|
    ensures auth.Some? ==> !outcomes[|waits|].Transient?
    ensures auth.Some? ==> auth.value == if outcomes[|waits|].Token? then Credential(outcomes[|waits|].value) else Empty
    ensures forall i :: 0 <= i < |waits| ==> waits[i] == Wait(initial, max, i)
    ensures Sampled(warned, |waits|)
  {
    auth, waits, warned := None, [], [];
    var delay, attempt := initial, 0;
    while attempt < |outcomes|
      invariant attempt == |waits| <= |outcomes|
      invariant forall i :: 0 <= i < attempt ==> outcomes[i] == Transient && waits[i] == Wait(initial, max, i)
      invariant delay == Wait(initial, max, attempt)
      invariant Sampled(warned, attempt)
    {
      attempt := attempt + 1;
      match outcomes[attempt - 1] {
        case Token(value) => return Some(Credential(value)), waits, warned;
        case Stop => return Some(Empty), waits, warned;
        case Transient =>
          SampledNext(warned, attempt - 1);
          DoublingStep(initial, max, attempt - 1);
          if IsPowerOfTwo(attempt) { warned := warned + [attempt]; }
          waits := waits + [delay];
          delay := Min(SaturatingDouble(delay), max);
      }
    }
  }

  // ---------- The seed ----------

  datatype Supplied = Seed(token: string) | Refreshed

  /** The seed is taken under its mutex, so that concurrent calls come one after the other. */
  class SeededProvider {
    var seed: Option<string>

    constructor (initial: string)
      ensures seed == Some(initial)
    {
      seed := Some(initial);
    }

    method Provide() returns (supplied: Supplied)
      modifies this
      ensures (supplied, seed) == ProvidedFrom(old(seed))
    {
      var taken := seed;
      seed := None;
      if taken.Some? { supplied := Seed(taken.value); } else { supplied := Refreshed; }
    }
  }

  function ProvidedFrom(seed: Option<string>): (Supplied, Option<string>) {
    if seed.Some? then (Seed(seed.value), None) else (Refreshed, None)
  }

  /** What a number of calls supply, in the order in which they get the mutex. */
  function ProvidedBy(seed: Option<string>, calls: nat): seq<Supplied>
    decreases calls
  {
    if calls == 0 then []
    else
      var (supplied, rest) := ProvidedFrom(seed);
      [supplied] + ProvidedBy(rest, calls - 1)
  }

  /** Over all calls, the seed is supplied exactly once, and first. */
  lemma {:induction false} SeedSuppliedOnce(seed: Option<string>, calls: nat)
    ensures |ProvidedBy(seed, calls)| == calls
    ensures forall i :: 0 <= i < calls ==>
      ProvidedBy(seed, calls)[i] == if i == 0 && seed.Some? then Seed(seed.value) else Refreshed
    decreases calls
  {
    if calls > 0 { SeedSuppliedOnce(None, calls - 1); }
  }
}
