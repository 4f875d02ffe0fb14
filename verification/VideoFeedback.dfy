/** Bitrate control, key-frame requests, and the controller that joins them with the playout delay. */
module VideoFeedback {
  import opened Common
  import opened Feedback

  datatype Snapshot = Snapshot(keyFrameRequests: u64, pressure: Option<Pressure>)

  const BITRATE_STEP := 100_000

  // ----- Bitrate -----

  datatype Rate = Rate(
    ceiling: u64,
    floor: u64,
    current: u64,
    evaluatedDrops: u64,
    lastEvaluation: Option<Instant>,
    lastChange: Option<Instant>)
  {
    predicate Bounded() { 1 <= floor <= current <= ceiling }

    predicate Overloaded(p: Pressure) {
      p.QueueSaturated() || p.dropped > evaluatedDrops
          || (p.fractionLost.Some? && p.fractionLost.value >= LOSS_DECREASE_THRESHOLD)
    }

    function Decreased(): (r: Option<u64>)
      requires Bounded()
      ensures r.Some? <==> current > floor
      ensures r.Some? ==> floor <= r.value < current && (r.value == floor || 5 * r.value <= 4 * current)
    {
      if current <= floor then None else Some(Max(Min(4 * current, U64_MAX) / 5, floor))
    }

    predicate CanRecover(p: Pressure, now: Instant) {
      && current < ceiling
      && ElapsedAtLeast(lastChange, now, BITRATE_RECOVERY_INTERVAL)
      && !p.QueueSaturated()
      && 2 * p.inFlight <= DURATION_MAX && 2 * p.inFlight <= p.maxAcceptableInFlight
      && (p.fractionLost.None? || p.fractionLost.value <= LOSS_RECOVERY_THRESHOLD)
    }

    function Increased(): (r: Option<u64>)
      requires Bounded()
      ensures r.Some? <==> current < ceiling
      ensures r.Some? ==> current < r.value <= ceiling && r.value >= Min(current + BITRATE_STEP, ceiling)
    {
      var increased := Min(Min(current + Max(current / 10, BITRATE_STEP), U64_MAX), ceiling);
      if increased > current then Some(increased) else None
    }
  }

  function NewController(configured: u64, receiverMinimum: u64, playout: Option<PlayoutConfiguration>): (c: Controller)
    requires configured > 0
    ensures c.Bounded()
  {
    Controller(NewRate(configured, receiverMinimum), Keys(0, None), if playout.Some? then
        Some(NewPlayout(playout.value)) else None)
  }

  function NewRate(configured: u64, receiverMinimum: u64): (s: Rate)
    requires configured > 0
    ensures s.Bounded() && s.ceiling == configured
  {
    Rate(configured, Min(Max(receiverMinimum, DEFAULT_BITRATE_FLOOR), configured), configured, 0, None, None)
  }

  function Requested(s: Rate, p: Pressure, now: Instant): (r: Option<u64>)
    requires s.Bounded()
    ensures r.Some? ==> s.floor <= r.value <= s.ceiling && r.value != s.current
  {
    if s.Overloaded(p) then s.Decreased() else if s.CanRecover(p, now) then s.Increased() else None
  }

  /** `observe_pressure`. */
  function ObserveRate(s: Rate, p: Pressure, now: Instant): (Rate, Option<u64>)
    requires s.Bounded()
  {
    if !ElapsedAtLeast(s.lastEvaluation, now, BITRATE_EVALUATION_INTERVAL) then (s, None)
    else
      var t := s.(lastEvaluation := Some(now), evaluatedDrops := p.dropped);
      match Requested(s, p, now)
      case None => (t, None)
      case Some(r) => (t.(current := r, lastChange := Some(now)), Some(r))
  }

  // ----- Key frames -----

  datatype Keys = Keys(observed: u64, lastAction: Option<Instant>)

  function ObserveKeys(s: Keys, requests: u64, now: Instant): (Keys, bool) {
    if requests > s.observed && ElapsedAtLeast(s.lastAction, now, KEY_FRAME_REQUEST_INTERVAL)
    then (Keys(requests, Some(now)), true)
    else (s, false)
  }

  // ----- The controller -----

  datatype Controller = Controller(rate: Rate, keys: Keys, playout: Option<Playout>) {
    predicate Bounded() { rate.Bounded() && (playout.Some? ==> playout.value.Bounded()) }
  }

  function ObserveRateOf(s: Rate, snapshot: Snapshot, now: Instant): (Rate, Option<u64>)
    requires s.Bounded()
  {
    if snapshot.pressure.None? then (s, None) else ObserveRate(s, snapshot.pressure.value, now)
  }

  function ObservePlayoutOf(s: Option<Playout>, snapshot: Snapshot, now: Instant): (Option<Playout>, Option<Action>)
    requires s.Some? ==> s.value.Bounded()
  {
    if snapshot.pressure.None? || s.None? then (s, None)
    else var (t, a) := ObservePlayout(s.value, snapshot.pressure.value, now); (Some(t), a)
  }

  /** `VideoFeedbackController::observe`: the three policies do not disturb one another, and act in a fixed order. */
  function Observed(c: Controller, snapshot: Snapshot, now: Instant): (Controller, seq<Action>)
    requires c.Bounded()
  {
    var (keys, force) := ObserveKeys(c.keys, snapshot.keyFrameRequests, now);
    var (rate, bitrate) := ObserveRateOf(c.rate, snapshot, now);
    var (playout, action) := ObservePlayoutOf(c.playout, snapshot, now);
    (Controller(rate, keys, playout),
     (if force then [ForceKeyFrame] else []) + (if bitrate.Some? then [SetBitrate(bitrate.value)] else [])
     + (if action.Some? then [action.value] else []))
  }

  /** The key frame comes first when it comes at all. */
  predicate Forces(actions: seq<Action>) { actions != [] && actions[0].ForceKeyFrame? }

  lemma SettledBounded(s: Playout, lossy: bool, required: Duration, now: Instant)
    requires s.Bounded()
    ensures Settled(s, lossy, required, now).0.Bounded()
  {
  }

  lemma UnconfirmedBounded(s: Playout, p: Pressure, now: Instant)
    requires s.Bounded()
    ensures Unconfirmed(s, p, now).0.Bounded()
  {
  }

  lemma PlayoutStaysBounded(s: Playout, p: Pressure, now: Instant)
    requires s.Bounded()
    ensures ObservePlayout(s, p, now).0.Bounded()
  {
    var n := Noted(s, p);
    UnconfirmedBounded(n, p, now);
    var t := Acknowledged(n, !s.DeadlinePressure(p) && !p.Lossy(), now);
    assert t.Bounded();
    SettledBounded(t, p.Lossy(), s.Required(p), now);
  }

  lemma ObservedBounded(c: Controller, snapshot: Snapshot, now: Instant)
    requires c.Bounded()
    ensures Observed(c, snapshot, now).0.Bounded()
  {
    if snapshot.pressure.Some?
        && c.playout.Some? { PlayoutStaysBounded(c.playout.value, snapshot.pressure.value, now); }
  }

  class VideoFeedbackController {
    const ceiling: u64
    const floor: u64
    var current: u64
    var observedKeyFrameRequests: u64
    var evaluatedTransportDrops: u64
    var lastKeyFrameAction: Option<Instant>
    var lastBitrateEvaluation: Option<Instant>
    var lastBitrateChange: Option<Instant>
    const playoutDelay: Option<AdaptivePlayoutDelayController>

    ghost function Objects(): set<object> {
      if playoutDelay.Some? then {this, playoutDelay.value} else {this}
    }

    ghost function View(): Controller
      reads Objects()
    {
      Controller(Rate(ceiling, floor, current, evaluatedTransportDrops, lastBitrateEvaluation, lastBitrateChange),
                 Keys(observedKeyFrameRequests, lastKeyFrameAction),
                 if playoutDelay.Some? then Some(playoutDelay.value.View()) else None)
    }

    constructor (configured: u64, receiverMinimum: u64, playout: Option<PlayoutConfiguration>)
      requires configured > 0
      ensures View() == NewController(configured, receiverMinimum, playout) && fresh(Objects())
    {
      var delay := None;
      if playout.Some? {
        var controller := new AdaptivePlayoutDelayController(playout.value);
        delay := Some(controller);
      }
      ceiling, current := configured, configured;
      floor := Min(Max(receiverMinimum, DEFAULT_BITRATE_FLOOR), configured);
      observedKeyFrameRequests, evaluatedTransportDrops := 0, 0;
      lastKeyFrameAction, lastBitrateEvaluation, lastBitrateChange := None, None, None;
      playoutDelay := delay;
    }

    method ObservePressure(p: Pressure, now: Instant) returns (bitrate: Option<u64>)
      requires View().Bounded()
      modifies this
      ensures View() == old(View()).(rate := ObserveRate(old(View()).rate, p, now).0)
      ensures bitrate == ObserveRate(old(View()).rate, p, now).1
    {
      if !ElapsedAtLeast(lastBitrateEvaluation, now, BITRATE_EVALUATION_INTERVAL) {
        return None;
      }
      var rate := Rate(ceiling, floor, current, evaluatedTransportDrops, lastBitrateEvaluation, lastBitrateChange);
      lastBitrateEvaluation, evaluatedTransportDrops := Some(now), p.dropped;
      bitrate := if rate.Overloaded(p) then rate.Decreased() else if rate.CanRecover(p, now) then rate.Increased()
          else None;
      if bitrate.Some? {
        current, lastBitrateChange := bitrate.value, Some(now);
      }
    }

    method Observe(snapshot: Snapshot, now: Instant) returns (actions: seq<Action>)
      requires View().Bounded()
      modifies Objects()
      ensures (View(), actions) == Observed(old(View()), snapshot, now) && View().Bounded()
    {
      ObservedBounded(View(), snapshot, now);
      var keyFrame, rate, delay := [], [], [];
      if snapshot.keyFrameRequests > observedKeyFrameRequests
          && ElapsedAtLeast(lastKeyFrameAction, now, KEY_FRAME_REQUEST_INTERVAL) {
        observedKeyFrameRequests, lastKeyFrameAction := snapshot.keyFrameRequests, Some(now);
        keyFrame := [ForceKeyFrame];
      }
      if snapshot.pressure.Some? {
        var bitrate := ObservePressure(snapshot.pressure.value, now);
        rate := if bitrate.Some? then [SetBitrate(bitrate.value)] else [];
        if playoutDelay.Some? {
          var action := playoutDelay.value.Observe(snapshot.pressure.value, now);
          delay := if action.Some? then [action.value] else [];
        }
      }
      actions := keyFrame + rate + delay;
    }
  }
}
