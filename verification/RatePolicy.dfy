/**
 * Bitrate control and key-frame requests against their own history: what the controller does at a snapshot is
 * determined by the snapshots and by what it has done before.
 */
module RatePolicy {
  import opened Common
  import opened Feedback
  import opened VideoFeedback
  import opened FeedbackRuns

  // ----- Bitrate -----

  /** The time of the last snapshot before `n` that was evaluated, and the drops it reported. */
  ghost function LastEvaluated(inputs: seq<Input>, n: nat): Option<(Instant, u64)>
    requires n <= |inputs|
    decreases n, 0
  {
    if n == 0 then None
    else if Evaluated(inputs, n - 1) then Some((inputs[n - 1].now, inputs[n - 1].snapshot.pressure.value.dropped))
    else LastEvaluated(inputs, n - 1)
  }

  /** Snapshots with a pressure are evaluated once a second. */
  ghost predicate Evaluated(inputs: seq<Input>, n: nat)
    requires n < |inputs|
    decreases n, 1
  {
    var last := LastEvaluated(inputs, n);
    inputs[n].snapshot.pressure.Some? && (last.Some? ==> inputs[n].now >= last.value.0 + SECOND)
  }

  ghost function DropsBefore(inputs: seq<Input>, n: nat): u64
    requires n <= |inputs|
  {
    if LastEvaluated(inputs, n).None? then 0 else LastEvaluated(inputs, n).value.1
  }

  /** The bitrate requested last. */
  ghost function Bitrate(configured: u64, changes: seq<Option<u64>>, n: nat): u64
    requires n <= |changes|
  {
    if n == 0 then configured
    else if changes[n - 1].Some? then changes[n - 1].value
    else Bitrate(configured, changes, n - 1)
  }

  ghost function LastChange(inputs: seq<Input>, changes: seq<Option<u64>>, n: nat): Option<Instant>
    requires n <= |inputs| && n <= |changes|
  {
    if n == 0 then None
    else if changes[n - 1].Some? then Some(inputs[n - 1].now)
    else LastChange(inputs, changes, n - 1)
  }

  function Floor(configured: u64, minimum: u64): u64 { Min(configured, Max(minimum, 250_000)) }

  /** A fifth less under strain, down to the floor; a tenth more after five clear seconds, up to what was configured. */
  ghost function NextBitrate(configured: u64, minimum: u64, inputs: seq<Input>, changes: seq<Option<u64>>, n: nat)
    : Option<u64>
    requires n < |inputs| && n <= |changes|
  {
    if !Evaluated(inputs, n) then None
    else
      var p, drops := inputs[n].snapshot.pressure.value, DropsBefore(inputs, n);
      var current, last := Bitrate(configured, changes, n), LastChange(inputs, changes, n);
      if Strained(p, drops) then
        if current > Floor(configured, minimum)
        then Some(Max(Floor(configured, minimum), Min(4 * current, U64_MAX) / 5)) else None
      else if Clear(p, drops) && current < configured && (last.Some? ==> inputs[n].now >= last.value + 5 * SECOND) then
        Some(Min(configured, current + Max(current / 10, 100_000)))
      else None
  }

  ghost predicate Mirrors(s: Rate, configured: u64, minimum: u64, inputs: seq<Input>, changes: seq<Option<u64>>, n: nat)
    requires n <= |inputs| && n <= |changes|
  {
    && s.ceiling == configured && s.floor == Floor(configured, minimum)
    && s.current == Bitrate(configured, changes, n) && s.evaluatedDrops == DropsBefore(inputs, n)
    && s.lastEvaluation == (if LastEvaluated(inputs, n).None? then None else Some(LastEvaluated(inputs, n).value.0))
    && s.lastChange == LastChange(inputs, changes, n)
  }

  /** One evaluation, said of what it depends on. */
  lemma Evaluates(s: Rate, p: Pressure, now: Instant)
    requires s.Bounded() && ElapsedAtLeast(s.lastEvaluation, now, SECOND)
    ensures Requested(s, p, now) ==
              if Strained(p, s.evaluatedDrops) then
                if s.current > s.floor then Some(Max(s.floor, Min(4 * s.current, U64_MAX) / 5)) else None
              else if Clear(p, s.evaluatedDrops) && s.current < s.ceiling
                   && (s.lastChange.Some? ==> now >= s.lastChange.value + 5 * SECOND) then
                Some(Min(s.ceiling, s.current + Max(s.current / 10, 100_000)))
              else None
  {
  }

  lemma MirrorsNext(configured: u64, minimum: u64, inputs: seq<Input>, rates: seq<Rate>, changes: seq<Option<u64>>,
      n: nat)
    requires RateExecution(inputs, rates, changes) && n < |inputs|
    requires Mirrors(rates[n], configured, minimum, inputs, changes, n)
    ensures Mirrors(rates[n + 1], configured, minimum, inputs, changes, n + 1)
    ensures changes[n] == NextBitrate(configured, minimum, inputs, changes, n)
  {
    var s, o := rates[n], inputs[n];
    assert (rates[n + 1], changes[n]) == ObserveRateOf(s, o.snapshot, o.now);
    if Evaluated(inputs, n) { Evaluates(s, o.snapshot.pressure.value, o.now); }
  }

  lemma {:induction false} ExecutionMirrors(configured: u64, minimum: u64, inputs: seq<Input>, rates: seq<Rate>,
      changes: seq<Option<u64>>, n: nat)
    requires configured > 0 && RateExecution(inputs, rates, changes) && rates[0] == NewRate(configured, minimum)
    requires n <= |inputs|
    ensures Mirrors(rates[n], configured, minimum, inputs, changes, n)
  {
    if n == 0 {
    } else {
      ExecutionMirrors(configured, minimum, inputs, rates, changes, n - 1);
      MirrorsNext(configured, minimum, inputs, rates, changes, n - 1);
    }
  }

  /** In every execution each bitrate request is the one the history calls for. */
  lemma BitrateFollowsPolicy(configured: u64, minimum: u64, inputs: seq<Input>, rates: seq<Rate>,
      changes: seq<Option<u64>>, n: nat)
    requires configured > 0 && RateExecution(inputs, rates, changes) && rates[0] == NewRate(configured, minimum)
    requires n < |inputs|
    ensures changes[n] == NextBitrate(configured, minimum, inputs, changes, n)
  {
    ExecutionMirrors(configured, minimum, inputs, rates, changes, n);
    MirrorsNext(configured, minimum, inputs, rates, changes, n);
  }

  // ----- Key frames -----

  /** When a key frame was forced last, and for how many requests. */
  ghost function LastForced(inputs: seq<Input>, forced: seq<bool>, n: nat): Option<Input>
    requires n <= |inputs| && n <= |forced|
  {
    if n == 0 then None else if forced[n - 1] then Some(inputs[n - 1]) else LastForced(inputs, forced, n - 1)
  }

  lemma {:induction false} KeysMirror(inputs: seq<Input>, keys: seq<Keys>, forced: seq<bool>, n: nat)
    requires KeyExecution(inputs, keys, forced) && keys[0] == Keys(0, None) && n <= |inputs|
    ensures var last := LastForced(inputs, forced, n);
            keys[n] == if last.None? then Keys(0, None)
                       else Keys(last.value.snapshot.keyFrameRequests, Some(last.value.now))
  {
    if n == 0 {
    } else {
      KeysMirror(inputs, keys, forced, n - 1);
      assert (keys[n], forced[n - 1]) ==
          ObserveKeys(keys[n - 1], inputs[n - 1].snapshot.keyFrameRequests, inputs[n - 1].now);
    }
  }

  /**
   * In every execution a key frame is forced if and only if more have been requested than when one was forced last, and
   * that lies half a second back.
   */
  lemma ForcedExactly(inputs: seq<Input>, keys: seq<Keys>, forced: seq<bool>, n: nat)
    requires KeyExecution(inputs, keys, forced) && keys[0] == Keys(0, None) && n < |inputs|
    ensures var last := LastForced(inputs, forced, n);
            forced[n] <==>
              if last.None? then inputs[n].snapshot.keyFrameRequests > 0
              else inputs[n].snapshot.keyFrameRequests > last.value.snapshot.keyFrameRequests
                   && inputs[n].now >= last.value.now + 500 * MILLISECOND
  {
    KeysMirror(inputs, keys, forced, n);
    assert (keys[n + 1], forced[n]) == ObserveKeys(keys[n], inputs[n].snapshot.keyFrameRequests, inputs[n].now);
  }
}
