/** Bitrate control and key-frame requests over whole sequences of feedback snapshots. */
module FeedbackRuns {
  import opened Common
  import opened Feedback
  import opened VideoFeedback

  datatype Input = Input(snapshot: Snapshot, now: Instant)

  /** A controller fed `inputs`: its states and the actions it returns. */
  ghost predicate Execution(inputs: seq<Input>, states: seq<Controller>, actions: seq<seq<Action>>) {
    && |states| == |inputs| + 1 && |actions| == |inputs|
    && forall i :: 0 <= i < |inputs| ==>
         states[i].Bounded() && (states[i + 1], actions[i]) == Observed(states[i], inputs[i].snapshot, inputs[i].now)
  }

  // ----- Bitrate -----

  /** The bitrate part of an execution: the requests are the `SetBitrate` actions. */
  ghost predicate RateExecution(inputs: seq<Input>, rates: seq<Rate>, changes: seq<Option<u64>>) {
    && |rates| == |inputs| + 1 && |changes| == |inputs| && rates[0].Bounded()
    && forall i :: 0 <= i < |inputs| ==>
         rates[i].Bounded() && (rates[i + 1], changes[i]) == ObserveRateOf(rates[i], inputs[i].snapshot, inputs[i].now)
  }

  ghost function BitrateOf(actions: seq<Action>): Option<u64> {
    if actions == [] then None
    else if actions[0].SetBitrate? then Some(actions[0].bitrate)
    else BitrateOf(actions[1..])
  }

  lemma BitrateOfParts(force: bool, bitrate: Option<u64>, delay: Option<Action>)
    requires delay.Some? ==> !delay.value.SetBitrate?
    ensures BitrateOf((if force then [ForceKeyFrame] else []) +
              (if bitrate.Some? then [SetBitrate(bitrate.value)] else [])
                      + (if delay.Some? then [delay.value] else [])) == bitrate
  {
    var last := if delay.Some? then [delay.value] else [];
    var rest := (if bitrate.Some? then [SetBitrate(bitrate.value)] else []) + last;
    assert BitrateOf(last) == None by { assert last != [] ==> last[1..] == []; }
    assert bitrate.None? ==> rest == last;
    assert (if force then [ForceKeyFrame] else []) + (if bitrate.Some? then [SetBitrate(bitrate.value)] else []) + last
        == (if force then [ForceKeyFrame] else []) + rest;
    assert ([ForceKeyFrame] + rest)[1..] == rest;
    assert [] + rest == rest;
  }

  lemma SettledActs(s: Playout, lossy: bool, required: Duration, now: Instant)
    requires s.current <= s.maximum
    ensures var a := Settled(s, lossy, required, now).1; a.Some? ==> a.value.SetPlayoutDelay?
  {
  }

  lemma PlayoutActs(s: Playout, p: Pressure, now: Instant)
    requires s.Bounded()
    ensures var a := ObservePlayout(s, p, now).1; a.Some? ==> !a.value.SetBitrate? && !a.value.ForceKeyFrame?
  {
    var t := Acknowledged(Noted(s, p), !s.DeadlinePressure(p) && !p.Lossy(), now);
    assert t.current <= t.maximum;
    SettledActs(t, p.Lossy(), s.Required(p), now);
  }

  lemma BitrateObserved(c: Controller, o: Input)
    requires c.Bounded()
    ensures var (d, actions) := Observed(c, o.snapshot, o.now);
            (d.rate, BitrateOf(actions)) == ObserveRateOf(c.rate, o.snapshot, o.now)
  {
    if o.snapshot.pressure.Some? && c.playout.Some? { PlayoutActs(c.playout.value, o.snapshot.pressure.value, o.now); }
    BitrateOfParts(ObserveKeys(c.keys, o.snapshot.keyFrameRequests, o.now).1,
        ObserveRateOf(c.rate, o.snapshot, o.now).1,
                   ObservePlayoutOf(c.playout, o.snapshot, o.now).1);
  }

  lemma ProjectRate(inputs: seq<Input>, states: seq<Controller>, actions: seq<seq<Action>>, rates: seq<Rate>,
      changes: seq<Option<u64>>)
    requires Execution(inputs, states, actions) && states[0].Bounded() && |rates| == |states| && |changes| == |actions|
    requires forall i :: 0 <= i < |states| ==> rates[i] == states[i].rate
    requires forall i :: 0 <= i < |actions| ==> changes[i] == BitrateOf(actions[i])
    ensures RateExecution(inputs, rates, changes)
  {
    forall i | 0 <= i < |inputs|
      ensures (rates[i + 1], changes[i]) == ObserveRateOf(rates[i], inputs[i].snapshot, inputs[i].now)
    {
      BitrateObserved(states[i], inputs[i]);
    }
  }

  /** What one snapshot does to the bitrate. */
  ghost predicate RateFacts(s: Rate, o: Input, t: Rate, r: Option<u64>) {
    && s.Bounded() && t.Bounded() && t.floor == s.floor && t.ceiling == s.ceiling
    && (t.lastEvaluation == s.lastEvaluation
        || (t.lastEvaluation == Some(o.now) && ElapsedAtLeast(s.lastEvaluation, o.now, BITRATE_EVALUATION_INTERVAL)))
    && (r.None? ==> t.current == s.current && t.lastChange == s.lastChange)
    && (r.Some? ==> t.current == r.value && t.lastChange == t.lastEvaluation == Some(o.now)
                    && ElapsedAtLeast(s.lastEvaluation, o.now, BITRATE_EVALUATION_INTERVAL))
    && (r.Some? && r.value > s.current ==> ElapsedAtLeast(s.lastChange, o.now, BITRATE_RECOVERY_INTERVAL))
  }

  lemma RateStep(inputs: seq<Input>, rates: seq<Rate>, changes: seq<Option<u64>>, i: nat)
    requires RateExecution(inputs, rates, changes) && i < |inputs|
    ensures RateFacts(rates[i], inputs[i], rates[i + 1], changes[i])
  {
    var o := inputs[i];
    assert (rates[i + 1], changes[i]) == ObserveRateOf(rates[i], o.snapshot, o.now);
  }

  /** In every run the bitrate stays between floor and ceiling, which never move. */
  lemma {:induction false} BitrateBounded(inputs: seq<Input>, rates: seq<Rate>, changes: seq<Option<u64>>, n: nat)
    requires RateExecution(inputs, rates, changes) && n <= |inputs|
    ensures rates[n].floor == rates[0].floor && rates[n].ceiling == rates[0].ceiling
    ensures rates[0].floor <= rates[n].current <= rates[0].ceiling
  {
    if n == 0 {
    } else {
      BitrateBounded(inputs, rates, changes, n - 1);
      RateStep(inputs, rates, changes, n - 1);
    }
  }

  lemma {:induction false} ClocksCover(inputs: seq<Input>, rates: seq<Rate>, changes: seq<Option<u64>>, m: nat, n: nat)
    requires RateExecution(inputs, rates, changes) && m < n <= |inputs| && changes[m].Some?
    ensures rates[n].lastEvaluation.Some? && rates[n].lastEvaluation.value >= inputs[m].now
    ensures rates[n].lastChange.Some? && rates[n].lastChange.value >= inputs[m].now
  {
    RateStep(inputs, rates, changes, n - 1);
    if m == n - 1 {
    } else {
      ClocksCover(inputs, rates, changes, m, n - 1);
    }
  }

  /** Bitrate changes are a second apart, and an increase comes five seconds after any change before it. */
  lemma BitrateChangesAreSpaced(inputs: seq<Input>, rates: seq<Rate>, changes: seq<Option<u64>>, m: nat, n: nat)
    requires RateExecution(inputs, rates, changes) && m < n < |inputs| && changes[m].Some? && changes[n].Some?
    ensures inputs[n].now >= inputs[m].now + BITRATE_EVALUATION_INTERVAL
    ensures rates[n + 1].current > rates[n].current ==> inputs[n].now >= inputs[m].now + BITRATE_RECOVERY_INTERVAL
  {
    ClocksCover(inputs, rates, changes, m, n);
    RateStep(inputs, rates, changes, n);
  }

  ghost predicate Spaced(inputs: seq<Input>, first: nat, n: nat, interval: Duration)
    requires first + n <= |inputs|
  {
    forall i :: first < i < first + n ==> inputs[i].now >= inputs[i - 1].now + interval
  }

  /** The transport holds all it accepts to hold, has dropped frames since the last sample, or loses a tenth. */
  ghost predicate Strained(p: Pressure, dropsBefore: u64) {
    || (p.maxAcceptableInFlight != 0 && p.inFlight >= p.maxAcceptableInFlight)
    || p.dropped > dropsBefore
    || (p.fractionLost.Some? && p.fractionLost.value >= 26)
  }

  ghost predicate AllStrained(inputs: seq<Input>, rates: seq<Rate>, first: nat, n: nat)
    requires first + n <= |inputs| < |rates|
  {
    forall i :: first <= i < first + n ==>
        inputs[i].snapshot.pressure.Some? && Strained(inputs[i].snapshot.pressure.value, rates[i].evaluatedDrops)
  }

  lemma DecayStep(s: Rate, o: Input)
    requires s.Bounded() && o.snapshot.pressure.Some? && Strained(o.snapshot.pressure.value, s.evaluatedDrops)
    requires ElapsedAtLeast(s.lastEvaluation, o.now, BITRATE_EVALUATION_INTERVAL)
    ensures var t := ObserveRateOf(s, o.snapshot, o.now).0;
            t.lastEvaluation == Some(o.now) && (t.current == s.floor || 5 * t.current <= 4 * s.current)
  {
  }

  lemma Scaled(p: nat, q: nat, current: nat, next: nat, floor: nat, start: nat)
    requires p * current <= Max(p * floor, q * start)
    requires next == floor || 5 * next <= 4 * current
    ensures 5 * (p * next) <= Max(5 * (p * floor), 4 * (q * start))
  {
    if next != floor {
      calc {
        5 * (p * next);
        p * (5 * next);
      <= { TimesGrows(p, 5 * next, 4 * current); }
        p * (4 * current);
        4 * (p * current);
      }
    }
  }

  lemma Regroup(x: nat, y: nat, z: nat)
    ensures x * y * z == x * (y * z)
  {
  }

  lemma PowerBound(current: nat, next: nat, floor: nat, start: nat, n: nat)
    requires Power(5, n) * current <= Max(Power(5, n) * floor, Power(4, n) * start)
    requires next == floor || 5 * next <= 4 * current
    ensures Power(5, n + 1) * next <= Max(Power(5, n + 1) * floor, Power(4, n + 1) * start)
  {
    var p, q := Power(5, n), Power(4, n);
    Scaled(p, q, current, next, floor, start);
    Regroup(5, p, next);
    Regroup(5, p, floor);
    Regroup(4, q, start);
  }

  /** Under `n` overloaded samples a second apart the bitrate falls to the floor or below (4/5)^n of where it was. */
  lemma {:induction false} OverloadDecays(inputs: seq<Input>, rates: seq<Rate>, changes: seq<Option<u64>>, first: nat,
      n: nat)
    requires RateExecution(inputs, rates, changes) && first + n <= |inputs|
    requires AllStrained(inputs, rates, first, n) && Spaced(inputs, first, n, BITRATE_EVALUATION_INTERVAL)
    requires n > 0 ==> ElapsedAtLeast(rates[first].lastEvaluation, inputs[first].now, BITRATE_EVALUATION_INTERVAL)
    ensures n > 0 ==> rates[first + n].lastEvaluation == Some(inputs[first + n - 1].now)
    ensures rates[first + n].floor == rates[first].floor
    ensures Power(5, n) * rates[first + n].current <=
              Max(Power(5, n) * rates[first].floor, Power(4, n) * rates[first].current)
  {
    if n == 0 {
    } else {
      var k := first + n - 1;
      OverloadDecays(inputs, rates, changes, first, n - 1);
      RateStep(inputs, rates, changes, k);
      DecayStep(rates[k], inputs[k]);
      PowerBound(rates[k].current, rates[k + 1].current, rates[first].floor, rates[first].current, n - 1);
    }
  }

  /** Nothing stands against a higher bitrate. */
  ghost predicate Clear(p: Pressure, dropsBefore: u64) {
    && !Strained(p, dropsBefore) && 2 * p.inFlight <= p.maxAcceptableInFlight
    && (p.fractionLost.Some? ==> p.fractionLost.value <= 5)
  }

  ghost predicate AllClear(inputs: seq<Input>, rates: seq<Rate>, first: nat, n: nat)
    requires first + n <= |inputs| < |rates|
  {
    forall i :: first <= i < first + n ==>
        inputs[i].snapshot.pressure.Some? && Clear(inputs[i].snapshot.pressure.value, rates[i].evaluatedDrops)
  }

  lemma RecoveryStep(s: Rate, o: Input)
    requires s.Bounded() && o.snapshot.pressure.Some? && Clear(o.snapshot.pressure.value, s.evaluatedDrops)
    requires ElapsedAtLeast(s.lastEvaluation, o.now, BITRATE_EVALUATION_INTERVAL)
               && ElapsedAtLeast(s.lastChange, o.now, BITRATE_RECOVERY_INTERVAL)
    ensures var t := ObserveRateOf(s, o.snapshot, o.now).0;
            && t.lastEvaluation == Some(o.now) && (t.lastChange == Some(o.now) || t.lastChange == s.lastChange)
            && t.current >= Min(s.current + BITRATE_STEP, s.ceiling)
  {
  }

  /** Clear samples five seconds apart raise the bitrate by a step each until the ceiling is reached. */
  lemma {:induction false} ClearSamplesRestore(inputs: seq<Input>, rates: seq<Rate>, changes: seq<Option<u64>>,
      first: nat, n: nat)
    requires RateExecution(inputs, rates, changes) && first + n <= |inputs|
    requires AllClear(inputs, rates, first, n) && Spaced(inputs, first, n, BITRATE_RECOVERY_INTERVAL)
    requires n > 0 ==> ElapsedAtLeast(rates[first].lastEvaluation, inputs[first].now, BITRATE_EVALUATION_INTERVAL)
                       && ElapsedAtLeast(rates[first].lastChange, inputs[first].now, BITRATE_RECOVERY_INTERVAL)
    ensures rates[first + n].ceiling == rates[first].ceiling
    ensures n > 0 ==> rates[first + n].lastEvaluation == Some(inputs[first + n - 1].now)
                      && ElapsedAtLeast(rates[first + n].lastChange, inputs[first + n - 1].now, 0)
    ensures Min(rates[first].current + n * BITRATE_STEP, rates[first].ceiling) <= rates[first + n].current <=
              rates[first].ceiling
  {
    ObserveBounds(inputs, rates, changes, first);
    if n == 0 {
    } else {
      var k := first + n - 1;
      ClearSamplesRestore(inputs, rates, changes, first, n - 1);
      RateStep(inputs, rates, changes, k);
      RecoveryStep(rates[k], inputs[k]);
    }
  }

  lemma ObserveBounds(inputs: seq<Input>, rates: seq<Rate>, changes: seq<Option<u64>>, n: nat)
    requires RateExecution(inputs, rates, changes) && n <= |inputs|
    ensures rates[n].Bounded()
  {
    if n > 0 { RateStep(inputs, rates, changes, n - 1); }
  }

  /** As many clear samples as there are steps between floor and ceiling restore the ceiling. */
  lemma CeilingRestored(inputs: seq<Input>, rates: seq<Rate>, changes: seq<Option<u64>>, first: nat, n: nat)
    requires RateExecution(inputs, rates, changes) && first + n <= |inputs| && n > 0
    requires AllClear(inputs, rates, first, n) && Spaced(inputs, first, n, BITRATE_RECOVERY_INTERVAL)
    requires ElapsedAtLeast(rates[first].lastEvaluation, inputs[first].now, BITRATE_EVALUATION_INTERVAL)
    requires ElapsedAtLeast(rates[first].lastChange, inputs[first].now, BITRATE_RECOVERY_INTERVAL)
    requires n >= (rates[0].ceiling - rates[0].floor + BITRATE_STEP - 1) / BITRATE_STEP
    ensures rates[first + n].current == rates[0].ceiling
  {
    BitrateBounded(inputs, rates, changes, first);
    ClearSamplesRestore(inputs, rates, changes, first, n);
  }

  // ----- Key frames -----

  lemma ForceParts(force: bool, bitrate: Option<u64>, delay: Option<Action>)
    requires delay.Some? ==> !delay.value.ForceKeyFrame?
    ensures var actions :=
              (if force then [ForceKeyFrame] else []) + (if bitrate.Some? then [SetBitrate(bitrate.value)] else [])
                           + (if delay.Some? then [delay.value] else []);
            Forces(actions) == force && forall i :: 0 < i < |actions| ==> !actions[i].ForceKeyFrame?
  {
  }

  lemma ForceObserved(c: Controller, o: Input)
    requires c.Bounded()
    ensures var (d, actions) := Observed(c, o.snapshot, o.now);
            && (d.keys, Forces(actions)) == ObserveKeys(c.keys, o.snapshot.keyFrameRequests, o.now)
            && forall i :: 0 < i < |actions| ==> !actions[i].ForceKeyFrame?
  {
    if o.snapshot.pressure.Some? && c.playout.Some? { PlayoutActs(c.playout.value, o.snapshot.pressure.value, o.now); }
    ForceParts(ObserveKeys(c.keys, o.snapshot.keyFrameRequests, o.now).1, ObserveRateOf(c.rate, o.snapshot, o.now).1,
               ObservePlayoutOf(c.playout, o.snapshot, o.now).1);
  }

  /** The key-frame part of an execution. */
  ghost predicate KeyExecution(inputs: seq<Input>, keys: seq<Keys>, forced: seq<bool>) {
    && |keys| == |inputs| + 1 && |forced| == |inputs|
    && forall i :: 0 <= i < |inputs| ==>
         (keys[i + 1], forced[i]) == ObserveKeys(keys[i], inputs[i].snapshot.keyFrameRequests, inputs[i].now)
  }

  lemma ProjectKeys(inputs: seq<Input>, states: seq<Controller>, actions: seq<seq<Action>>, keys: seq<Keys>,
      forced: seq<bool>)
    requires Execution(inputs, states, actions) && |keys| == |states| && |forced| == |actions|
    requires forall i :: 0 <= i < |states| ==> keys[i] == states[i].keys
    requires forall i :: 0 <= i < |actions| ==> forced[i] == Forces(actions[i])
    ensures KeyExecution(inputs, keys, forced)
    ensures forall i, k :: 0 <= i < |actions| && 0 < k < |actions[i]| ==> !actions[i][k].ForceKeyFrame?
  {
    forall i, k | 0 <= i < |actions| && 0 < k < |actions[i]| ensures !actions[i][k].ForceKeyFrame? {
      ForceObserved(states[i], inputs[i]);
      assert (states[i + 1], actions[i]) == Observed(states[i], inputs[i].snapshot, inputs[i].now);
    }
    forall i | 0 <= i < |inputs|
      ensures (keys[i + 1], forced[i]) == ObserveKeys(keys[i], inputs[i].snapshot.keyFrameRequests, inputs[i].now)
    {
      ForceObserved(states[i], inputs[i]);
    }
  }

  ghost function Count(forced: seq<bool>, n: nat): nat
    requires n <= |forced|
  {
    if n == 0 then 0 else Count(forced, n - 1) + if forced[n - 1] then 1 else 0
  }

  /** Every forced key frame uses up a request of its own: there are never more of them than requests published. */
  lemma {:induction false} ForcesAreRequested(inputs: seq<Input>, keys: seq<Keys>, forced: seq<bool>, n: nat,
      published: u64)
    requires KeyExecution(inputs, keys, forced) && n <= |inputs| && keys[0] == Keys(0, None)
    requires forall i :: 0 <= i < n ==> inputs[i].snapshot.keyFrameRequests <= published
    ensures Count(forced, n) <= keys[n].observed <= published
  {
    if n == 0 {
    } else {
      ForcesAreRequested(inputs, keys, forced, n - 1, published);
      assert (keys[n], forced[n - 1]) ==
          ObserveKeys(keys[n - 1], inputs[n - 1].snapshot.keyFrameRequests, inputs[n - 1].now);
    }
  }

  lemma {:induction false} LastForceCovers(inputs: seq<Input>, keys: seq<Keys>, forced: seq<bool>, m: nat, n: nat)
    requires KeyExecution(inputs, keys, forced) && m < n <= |inputs| && forced[m]
    ensures keys[n].lastAction.Some? && keys[n].lastAction.value >= inputs[m].now
    ensures keys[n].observed >= inputs[m].snapshot.keyFrameRequests
  {
    assert (keys[n], forced[n - 1]) ==
        ObserveKeys(keys[n - 1], inputs[n - 1].snapshot.keyFrameRequests, inputs[n - 1].now);
    if m == n - 1 {
    } else {
      LastForceCovers(inputs, keys, forced, m, n - 1);
    }
  }

  /** Forced key frames are half a second apart, and each answers a request newer than the ones answered before. */
  lemma ForcesAreSpaced(inputs: seq<Input>, keys: seq<Keys>, forced: seq<bool>, m: nat, n: nat)
    requires KeyExecution(inputs, keys, forced) && m < n < |inputs| && forced[m] && forced[n]
    ensures inputs[n].now >= inputs[m].now + KEY_FRAME_REQUEST_INTERVAL
    ensures inputs[n].snapshot.keyFrameRequests > inputs[m].snapshot.keyFrameRequests
  {
    LastForceCovers(inputs, keys, forced, m, n);
    assert (keys[n + 1], forced[n]) == ObserveKeys(keys[n], inputs[n].snapshot.keyFrameRequests, inputs[n].now);
  }
}
