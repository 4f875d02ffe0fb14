/** Generation-local adaptation of bitrate, key frames and playout delay to transport feedback. */
module Feedback {
  import opened Common

  const DEFAULT_BITRATE_FLOOR := 250_000
  const KEY_FRAME_REQUEST_INTERVAL: Duration := 500 * MILLISECOND
  const BITRATE_EVALUATION_INTERVAL: Duration := SECOND
  const BITRATE_RECOVERY_INTERVAL: Duration := 5 * SECOND
  const LOSS_DECREASE_THRESHOLD := 26
  const LOSS_RECOVERY_THRESHOLD := 5
  const PLAYOUT_DELAY_STEP: Duration := 33 * MILLISECOND
  const MAXIMUM_PLAYOUT_DELAY: Duration := 250 * MILLISECOND
  const PLAYOUT_ADJUSTMENT_INTERVAL: Duration := SECOND
  const PLAYOUT_UPDATE_RETRY_INTERVAL: Duration := 2 * SECOND
  const MAXIMUM_PLAYOUT_UPDATE_ATTEMPTS := 3
  const PLAYOUT_RECOVERY_INTERVAL: Duration := 15 * SECOND
  const RTT_PLAYOUT_MULTIPLIER := 3

  datatype Pressure = Pressure(
    inFlightFrames: nat,
    inFlight: Duration,
    maxAcceptableInFlight: Duration,
    currentRtt: Option<Duration>,
    receiverPlayoutDelay: Option<Duration>,
    nackCount: u64,
    dropped: u64,
    fractionLost: Option<nat>)
  {
    predicate QueueSaturated() {
      maxAcceptableInFlight != 0 && inFlight >= maxAcceptableInFlight
    }

    predicate Lossy() {
      fractionLost.Some? && fractionLost.value > LOSS_RECOVERY_THRESHOLD
    }
  }

  datatype Action =
    | ForceKeyFrame
    | SetBitrate(bitrate: u64)
    | SetPlayoutDelay(delay: Duration)
    | DisableAdaptivePlayoutDelay(requested: Duration, receiver: Option<Duration>)

  /** True of a `None`: nothing has happened yet that would have to age. */
  predicate ElapsedAtLeast(previous: Option<Instant>, now: Instant, interval: Duration) {
    previous.None? || now >= previous.value + interval
  }

  /** Rounds up to milliseconds. */
  function WholeMilliseconds(d: Duration): (r: Duration)
    ensures r % MILLISECOND == 0
    ensures d <= U64_MAX * MILLISECOND ==> d <= r < d + MILLISECOND
  {
    Min((d + MILLISECOND - 1) / MILLISECOND, U64_MAX) * MILLISECOND
  }

  // ----- Playout delay -----

  datatype Playout = Playout(
    minimum: Duration,
    maximum: Duration,
    current: Duration,
    evaluatedNacks: u64,
    evaluatedDrops: u64,
    stepPending: bool,
    confirmed: bool,
    stableSince: Option<Instant>,
    lastAdjustment: Option<Instant>,
    lastUpdateSent: Option<Instant>,
    attempts: nat,
    enabled: bool)
  {
    predicate Bounded() { minimum <= current <= maximum }

    predicate StepPressure(p: Pressure) {
      p.nackCount > evaluatedNacks || p.dropped > evaluatedDrops
    }

    /** The delay the round trip calls for, within the bounds. */
    function Required(p: Pressure): (r: Duration)
      requires minimum <= maximum
      ensures minimum <= r <= maximum
    {
      var wanted := if p.currentRtt.None? then minimum
          else WholeMilliseconds(Min(RTT_PLAYOUT_MULTIPLIER * p.currentRtt.value, DURATION_MAX));
      Max(minimum, Min(wanted, maximum))
    }

    predicate DeadlinePressure(p: Pressure)
      requires minimum <= maximum
    {
      StepPressure(p) || Required(p) > current
    }

    /** The receiver reports the target and nothing speaks against it. */
    predicate Calm(p: Pressure)
      requires minimum <= maximum
    {
      p.receiverPlayoutDelay == Some(current) && !DeadlinePressure(p) && !p.Lossy()
    }
  }

  datatype PlayoutConfiguration = PlayoutConfiguration(minimum: Duration, initial: Duration,
      receiverMaximum: Option<Duration>)

  function NewPlayout(c: PlayoutConfiguration): (s: Playout)
    ensures s.Bounded() && s.enabled
  {
    var limit := if c.receiverMaximum.None? then MAXIMUM_PLAYOUT_DELAY
        else Min(c.receiverMaximum.value, MAXIMUM_PLAYOUT_DELAY);
    Playout(Min(c.minimum, c.initial), Max(limit, c.initial), c.initial, 0, 0, false, false, None, None, None, 0, true)
  }

  function SetCurrent(s: Playout, requested: Duration, now: Instant): Playout {
    s.(current := requested, confirmed := false, stableSince := None, lastAdjustment := Some(now),
       lastUpdateSent := Some(now), attempts := 1)
  }

  /** The counters, the pending step and the stability clock after an observation has been read. */
  function Noted(s: Playout, p: Pressure): Playout
    requires s.Bounded()
  {
    s.(evaluatedNacks := p.nackCount, evaluatedDrops := p.dropped,
       stableSince := if s.DeadlinePressure(p) || p.Lossy() then None else s.stableSince,
       stepPending := s.stepPending || s.StepPressure(p))
  }

  /** The receiver does not report the target: send it again every two seconds, three times in all, then give up. */
  function Unconfirmed(s: Playout, p: Pressure, now: Instant): (Playout, Option<Action>) {
    var since := if s.lastUpdateSent.None? then now else s.lastUpdateSent.value;
    var t := s.(confirmed := false, stableSince := None, lastUpdateSent := Some(since));
    if now < since + PLAYOUT_UPDATE_RETRY_INTERVAL then (t, None)
    else if t.attempts >= MAXIMUM_PLAYOUT_UPDATE_ATTEMPTS then
      (t.(lastUpdateSent := Some(now), enabled := false),
       Some(DisableAdaptivePlayoutDelay(t.current, p.receiverPlayoutDelay)))
    else (t.(lastUpdateSent := Some(now), attempts := t.attempts + 1), Some(SetPlayoutDelay(t.current)))
  }

  /** The receiver reports the target: the handshake is over, and a quiet observation starts the stability clock. */
  function Acknowledged(s: Playout, quiet: bool, now: Instant): Playout {
    var t := if s.confirmed then s else s.(confirmed := true, lastUpdateSent := None, attempts := 0);
    if quiet && t.stableSince.None? then t.(stableSince := Some(now)) else t
  }

  predicate MayRaise(s: Playout, required: Duration, now: Instant) {
    (s.stepPending || required > s.current) && ElapsedAtLeast(s.lastAdjustment, now, PLAYOUT_ADJUSTMENT_INTERVAL)
  }

  function RaisedDelay(s: Playout, required: Duration): (d: Duration)
    requires s.current <= s.maximum
    ensures d <= s.maximum
  {
    Min(Max(if s.stepPending then s.current + PLAYOUT_DELAY_STEP else s.current, required), s.maximum)
  }

  predicate MayLower(s: Playout, lossy: bool, now: Instant) {
    s.current > s.minimum && !s.stepPending && !lossy && ElapsedAtLeast(s.stableSince, now, PLAYOUT_RECOVERY_INTERVAL)
  }

  function LoweredDelay(s: Playout, required: Duration): (d: Duration)
    ensures d >= s.minimum && d >= required
  {
    Max(Max(Max(s.current - PLAYOUT_DELAY_STEP, 0), required), s.minimum)
  }

  function Lowered(s: Playout, lossy: bool, required: Duration, now: Instant): (Playout, Option<Action>) {
    var lowered := LoweredDelay(s, required);
    if MayLower(s, lossy, now) && lowered < s.current
    then (SetCurrent(s, lowered, now), Some(SetPlayoutDelay(lowered)))
    else (s, None)
  }

  /** Raise the target under pressure, else lower it after stability. */
  function Settled(s: Playout, lossy: bool, required: Duration, now: Instant): (Playout, Option<Action>)
    requires s.current <= s.maximum
  {
    if !MayRaise(s, required, now) then Lowered(s, lossy, required, now)
    else
      var raised, t := RaisedDelay(s, required), s.(stepPending := false);
      if raised > s.current then (SetCurrent(t, raised, now), Some(SetPlayoutDelay(raised)))
      else Lowered(t, lossy, required, now)
  }

  /** `AdaptivePlayoutDelayController::observe`. */
  function ObservePlayout(s: Playout, p: Pressure, now: Instant): (Playout, Option<Action>)
    requires s.Bounded()
  {
    if !s.enabled then (s, None)
    else if p.receiverPlayoutDelay != Some(s.current) then Unconfirmed(Noted(s, p), p, now)
    else Settled(Acknowledged(Noted(s, p), !s.DeadlinePressure(p) && !p.Lossy(), now), p.Lossy(), s.Required(p), now)
  }

  class AdaptivePlayoutDelayController {
    var minimum: Duration
    var maximum: Duration
    var current: Duration
    var evaluatedNackCount: u64
    var evaluatedTransportDrops: u64
    var stepIncreasePending: bool
    var confirmed: bool
    var stableSince: Option<Instant>
    var lastAdjustment: Option<Instant>
    var lastUpdateSent: Option<Instant>
    var updateAttempts: nat
    var updatesEnabled: bool

    ghost function View(): Playout
      reads this
    {
      Playout(minimum, maximum, current, evaluatedNackCount, evaluatedTransportDrops, stepIncreasePending, confirmed,
              stableSince, lastAdjustment, lastUpdateSent, updateAttempts, updatesEnabled)
    }

    constructor (c: PlayoutConfiguration)
      ensures View() == NewPlayout(c)
    {
      minimum := Min(c.minimum, c.initial);
      maximum := Max(if c.receiverMaximum.None? then MAXIMUM_PLAYOUT_DELAY
          else Min(c.receiverMaximum.value, MAXIMUM_PLAYOUT_DELAY), c.initial);
      current := c.initial;
      evaluatedNackCount, evaluatedTransportDrops, stepIncreasePending, confirmed := 0, 0, false, false;
      stableSince, lastAdjustment, lastUpdateSent, updateAttempts, updatesEnabled := None, None, None, 0, true;
    }

    method Adjust(requested: Duration, now: Instant) returns (action: Action)
      modifies this
      ensures View() == SetCurrent(old(View()), requested, now) && action == SetPlayoutDelay(requested)
    {
      current, confirmed, stableSince := requested, false, None;
      lastAdjustment, lastUpdateSent, updateAttempts := Some(now), Some(now), 1;
      action := SetPlayoutDelay(requested);
    }

    method Retry(p: Pressure, now: Instant) returns (action: Option<Action>)
      modifies this
      ensures (View(), action) == Unconfirmed(old(View()), p, now)
    {
      confirmed, stableSince := false, None;
      if lastUpdateSent.None? {
        lastUpdateSent := Some(now);
      }
      if now < lastUpdateSent.value + PLAYOUT_UPDATE_RETRY_INTERVAL {
        return None;
      }
      lastUpdateSent := Some(now);
      if updateAttempts >= MAXIMUM_PLAYOUT_UPDATE_ATTEMPTS {
        updatesEnabled := false;
        return Some(DisableAdaptivePlayoutDelay(current, p.receiverPlayoutDelay));
      }
      updateAttempts := updateAttempts + 1;
      action := Some(SetPlayoutDelay(current));
    }

    method Acknowledge(quiet: bool, now: Instant)
      modifies this
      ensures View() == Acknowledged(old(View()), quiet, now)
    {
      if !confirmed {
        confirmed, lastUpdateSent, updateAttempts := true, None, 0;
      }
      if quiet && stableSince.None? {
        stableSince := Some(now);
      }
    }

    method Settle(lossy: bool, required: Duration, now: Instant) returns (action: Option<Action>)
      requires current <= maximum
      modifies this
      ensures (View(), action) == Settled(old(View()), lossy, required, now)
    {
      if (stepIncreasePending || required > current)
          && ElapsedAtLeast(lastAdjustment, now, PLAYOUT_ADJUSTMENT_INTERVAL) {
        var raised :=
            Min(Max(if stepIncreasePending then current + PLAYOUT_DELAY_STEP else current, required), maximum);
        stepIncreasePending := false;
        if raised > current {
          var adjusted := Adjust(raised, now);
          return Some(adjusted);
        }
      }
      if current > minimum && !stepIncreasePending && !lossy
          && ElapsedAtLeast(stableSince, now, PLAYOUT_RECOVERY_INTERVAL) {
        var lowered := Max(Max(Max(current - PLAYOUT_DELAY_STEP, 0), required), minimum);
        if lowered < current {
          var adjusted := Adjust(lowered, now);
          return Some(adjusted);
        }
      }
      action := None;
    }

    method Observe(p: Pressure, now: Instant) returns (action: Option<Action>)
      requires View().Bounded()
      modifies this
      ensures (View(), action) == ObservePlayout(old(View()), p, now)
    {
      if !updatesEnabled {
        return None;
      }
      var newNack, newDrop := p.nackCount > evaluatedNackCount, p.dropped > evaluatedTransportDrops;
      evaluatedNackCount, evaluatedTransportDrops := p.nackCount, p.dropped;
      var wanted := if p.currentRtt.None? then minimum
          else WholeMilliseconds(Min(RTT_PLAYOUT_MULTIPLIER * p.currentRtt.value, DURATION_MAX));
      var required := Max(minimum, Min(wanted, maximum));
      var deadlinePressure := newNack || newDrop || required > current;
      if deadlinePressure || p.Lossy() {
        stableSince := None;
      }
      stepIncreasePending := stepIncreasePending || newNack || newDrop;
      assert View() == Noted(old(View()), p);
      if p.receiverPlayoutDelay != Some(current) {
        action := Retry(p, now);
      } else {
        Acknowledge(!deadlinePressure && !p.Lossy(), now);
        action := Settle(p.Lossy(), required, now);
      }
    }
  }
}
