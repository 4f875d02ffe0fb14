/**
 * The playout-delay controller against its own history: what it does at an observation is determined by the
 * observations and by what it has sent before.
 */
module PlayoutPolicy {
  import opened Common
  import opened Feedback
  import opened PlayoutRuns

  type Sent = seq<Option<Action>>

  // ----- The history -----

  /** The controller has been told of every observation before `n`, and has answered each of them. */
  ghost predicate Told(run: seq<Observation>, actions: Sent, n: nat) { n <= |run| && n <= |actions| }

  function LowerBound(c: PlayoutConfiguration): Duration { Min(c.minimum, c.initial) }

  function UpperBound(c: PlayoutConfiguration): Duration {
    var limit := match c.receiverMaximum case None => 250 * MILLISECOND case Some(m) => Min(m, 250 * MILLISECOND);
    Max(limit, c.initial)
  }

  /** The delay sent last. */
  ghost function Target(c: PlayoutConfiguration, actions: Sent, n: nat): Duration
    requires n <= |actions|
  {
    if n == 0 then c.initial
    else if Sends(actions[n - 1]) then actions[n - 1].value.delay
    else Target(c, actions, n - 1)
  }

  ghost predicate Adapts(actions: Sent, n: nat)
    requires n <= |actions|
  {
    forall i :: 0 <= i < n ==> !(actions[i].Some? && actions[i].value.DisableAdaptivePlayoutDelay?)
  }

  ghost predicate InForce(c: PlayoutConfiguration, run: seq<Observation>, actions: Sent, n: nat)
    requires n < |run| && n <= |actions|
  {
    run[n].pressure.receiverPlayoutDelay == Some(Target(c, actions, n))
  }

  /** The observation reports more retransmissions or drops than the one before. */
  ghost predicate NewLoss(run: seq<Observation>, n: nat)
    requires n < |run|
  {
    var p := run[n].pressure;
    if n == 0 then p.nackCount > 0 || p.dropped > 0
    else p.nackCount > run[n - 1].pressure.nackCount || p.dropped > run[n - 1].pressure.dropped
  }

  ghost predicate MovesAt(c: PlayoutConfiguration, actions: Sent, n: nat)
    requires n < |actions|
  {
    Sends(actions[n]) && actions[n].value.delay != Target(c, actions, n)
  }

  ghost function LastMove(c: PlayoutConfiguration, run: seq<Observation>, actions: Sent, n: nat): Option<Instant>
    requires Told(run, actions, n)
  {
    if n == 0 then None
    else if MovesAt(c, actions, n - 1) then Some(run[n - 1].now)
    else LastMove(c, run, actions, n - 1)
  }

  /** The target is in force and has not moved for a second. */
  ghost predicate Movable(c: PlayoutConfiguration, run: seq<Observation>, actions: Sent, n: nat)
    requires n < |run| && n <= |actions|
  {
    var last := LastMove(c, run, actions, n);
    InForce(c, run, actions, n) && (last.Some? ==> run[n].now >= last.value + SECOND)
  }

  /** A new loss has been reported that no observation before this one could answer. */
  ghost predicate Unanswered(c: PlayoutConfiguration, run: seq<Observation>, actions: Sent, n: nat)
    requires n < |run| && n <= |actions|
  {
    NewLoss(run, n) || (n > 0 && Unanswered(c, run, actions, n - 1) && !Movable(c, run, actions, n - 1))
  }

  /** Three round trips, in whole milliseconds. */
  function ThreeRoundTrips(p: Pressure): Duration {
    if p.currentRtt.None? then 0 else WholeMilliseconds(Min(3 * p.currentRtt.value, DURATION_MAX))
  }

  predicate Lossy(p: Pressure) { p.fractionLost.Some? && p.fractionLost.value > 5 }

  /** The target is in force and nothing speaks against it. */
  ghost predicate Quiet(c: PlayoutConfiguration, run: seq<Observation>, actions: Sent, n: nat)
    requires n < |run| && n <= |actions|
  {
    && InForce(c, run, actions, n) && !NewLoss(run, n) && !Lossy(run[n].pressure)
    && Min(ThreeRoundTrips(run[n].pressure), UpperBound(c)) <= Target(c, actions, n)
  }

  /** Since when all has been quiet about an unchanged target. */
  ghost function QuietSince(c: PlayoutConfiguration, run: seq<Observation>, actions: Sent, n: nat): Option<Instant>
    requires Told(run, actions, n)
  {
    if n == 0 || !Quiet(c, run, actions, n - 1) || MovesAt(c, actions, n - 1) then None
    else
      var since := QuietSince(c, run, actions, n - 1);
      if since.Some? then since else Some(run[n - 1].now)
  }

  /** Since when the receiver has been expected to report the target. */
  ghost function AwaitedSince(c: PlayoutConfiguration, run: seq<Observation>, actions: Sent, n: nat): Option<Instant>
    requires Told(run, actions, n)
  {
    if n == 0 then None
    else if Sends(actions[n - 1]) then Some(run[n - 1].now)
    else if InForce(c, run, actions, n - 1) then None
    else
      var since := AwaitedSince(c, run, actions, n - 1);
      if since.Some? then since else Some(run[n - 1].now)
  }

  /** How often the target has been sent since the receiver last reported it. */
  ghost function SendsSinceReport(c: PlayoutConfiguration, run: seq<Observation>, actions: Sent, n: nat): nat
    requires Told(run, actions, n)
  {
    if n == 0 then 0
    else (if InForce(c, run, actions, n - 1) then 0 else SendsSinceReport(c, run, actions, n - 1))
         + if Sends(actions[n - 1]) then 1 else 0
  }

  // ----- What the history calls for -----

  ghost predicate Raises(c: PlayoutConfiguration, run: seq<Observation>, actions: Sent, n: nat)
    requires n < |run| && n <= |actions|
  {
    && Movable(c, run, actions, n) && Target(c, actions, n) < UpperBound(c)
    && (Unanswered(c, run, actions, n) || ThreeRoundTrips(run[n].pressure) > Target(c, actions, n))
  }

  ghost function RaisedTo(c: PlayoutConfiguration, run: seq<Observation>, actions: Sent, n: nat): Duration
    requires n < |run| && n <= |actions|
  {
    var target := Target(c, actions, n);
    var step := if Unanswered(c, run, actions, n) then target + 33 * MILLISECOND else target;
    Min(UpperBound(c), Max(step, ThreeRoundTrips(run[n].pressure)))
  }

  /**
   * Fifteen quiet seconds, or the branch that departs from the intent: a new loss at a target that cannot be raised.
   */
  ghost predicate Lowers(c: PlayoutConfiguration, run: seq<Observation>, actions: Sent, n: nat)
    requires n < |run| && n <= |actions|
  {
    var target, since := Target(c, actions, n), QuietSince(c, run, actions, n);
    && InForce(c, run, actions, n) && !Raises(c, run, actions, n)
    && target > LowerBound(c) && ThreeRoundTrips(run[n].pressure) < target && !Lossy(run[n].pressure)
    && (Unanswered(c, run, actions, n) ==> Movable(c, run, actions, n))
    && (NewLoss(run, n) || (since.Some? && run[n].now >= since.value + 15 * SECOND))
  }

  ghost function LoweredTo(c: PlayoutConfiguration, run: seq<Observation>, actions: Sent, n: nat): Duration
    requires n < |run| && n <= |actions|
  {
    Max(Max(Target(c, actions, n) - 33 * MILLISECOND, ThreeRoundTrips(run[n].pressure)), LowerBound(c))
  }

  /** A target that is not in force is sent again every two seconds, three times in all; then adaptation ends. */
  ghost function Retries(c: PlayoutConfiguration, run: seq<Observation>, actions: Sent, n: nat): Option<Action>
    requires n < |run| && n <= |actions|
  {
    var target, since := Target(c, actions, n), AwaitedSince(c, run, actions, n);
    if since.None? || run[n].now < since.value + 2 * SECOND then None
    else if SendsSinceReport(c, run, actions, n) >= 3 then
      Some(DisableAdaptivePlayoutDelay(target, run[n].pressure.receiverPlayoutDelay))
    else Some(SetPlayoutDelay(target))
  }

  ghost function Policy(c: PlayoutConfiguration, run: seq<Observation>, actions: Sent, n: nat): Option<Action>
    requires n < |run| && n <= |actions|
  {
    if !Adapts(actions, n) then None
    else if !InForce(c, run, actions, n) then Retries(c, run, actions, n)
    else if Raises(c, run, actions, n) then Some(SetPlayoutDelay(RaisedTo(c, run, actions, n)))
    else if Lowers(c, run, actions, n) then Some(SetPlayoutDelay(LoweredTo(c, run, actions, n)))
    else None
  }

  // ----- The controller remembers what it needs of the history -----

  ghost predicate Counters(s: Playout, run: seq<Observation>, n: nat)
    requires n <= |run|
  {
    && s.evaluatedNacks == (if n == 0 then 0 else run[n - 1].pressure.nackCount)
    && s.evaluatedDrops == (if n == 0 then 0 else run[n - 1].pressure.dropped)
  }

  /** What is pending before observation `n`. */
  ghost predicate Carries(c: PlayoutConfiguration, run: seq<Observation>, actions: Sent, n: nat)
    requires Told(run, actions, n)
  {
    n > 0 && Unanswered(c, run, actions, n - 1) && !Movable(c, run, actions, n - 1)
  }

  ghost predicate Mirrors(s: Playout, c: PlayoutConfiguration, run: seq<Observation>, actions: Sent, n: nat)
    requires Told(run, actions, n)
  {
    && s.minimum == LowerBound(c) && s.maximum == UpperBound(c)
    && s.current == Target(c, actions, n) && s.enabled == Adapts(actions, n)
    && (s.enabled ==>
          && Counters(s, run, n) && s.stepPending == Carries(c, run, actions, n)
          && s.lastAdjustment == LastMove(c, run, actions, n)
          && s.stableSince == QuietSince(c, run, actions, n)
          && s.lastUpdateSent == AwaitedSince(c, run, actions, n)
          && s.attempts == SendsSinceReport(c, run, actions, n))
  }

  lemma FollowsUnconfirmed(s: Playout, c: PlayoutConfiguration, run: seq<Observation>, actions: Sent, n: nat)
    requires n < |run| && n < |actions| && Invariant(s) && Mirrors(s, c, run, actions, n)
    requires s.enabled && !InForce(c, run, actions, n)
    ensures ObservePlayout(s, run[n].pressure, run[n].now).1 == Retries(c, run, actions, n)
  {
  }

  predicate Pends(s: Playout, p: Pressure) {
    s.stepPending || p.nackCount > s.evaluatedNacks || p.dropped > s.evaluatedDrops
  }

  predicate Settles(s: Playout, p: Pressure, now: Instant) {
    && s.Bounded() && s.enabled && p.receiverPlayoutDelay == Some(s.current)
    && (s.lastAdjustment.Some? ==> now >= s.lastAdjustment.value + SECOND)
  }

  lemma RequiredDelay(s: Playout, p: Pressure)
    requires s.Bounded()
    ensures s.Required(p) == Max(s.minimum, Min(ThreeRoundTrips(p), s.maximum))
  {
  }

  lemma RaisesWhen(s: Playout, p: Pressure, now: Instant)
    requires Settles(s, p, now) && s.current < s.maximum && (Pends(s, p) || ThreeRoundTrips(p) > s.current)
    ensures var step := if Pends(s, p) then s.current + 33 * MILLISECOND else s.current;
            ObservePlayout(s, p, now).1 == Some(SetPlayoutDelay(Min(s.maximum, Max(step, ThreeRoundTrips(p)))))
  {
    RequiredDelay(s, p);
  }

  /** What is left to decide once nothing is raised. */
  function Unraised(s: Playout, p: Pressure, now: Instant): Playout
    requires s.Bounded()
  {
    Acknowledged(Noted(s, p), !s.DeadlinePressure(p) && !p.Lossy(), now)
      .(stepPending := Pends(s, p) && !Settles(s, p, now))
  }

  lemma NotRaised(s: Playout, p: Pressure, now: Instant)
    requires s.Bounded() && s.enabled && p.receiverPlayoutDelay == Some(s.current)
    requires !(Settles(s, p, now) && s.current < s.maximum && (Pends(s, p) || ThreeRoundTrips(p) > s.current))
    ensures ObservePlayout(s, p, now).1 == Lowered(Unraised(s, p, now), p.Lossy(), s.Required(p), now).1
  {
    RequiredDelay(s, p);
  }

  lemma LowersWhen(s: Playout, p: Pressure, now: Instant)
    requires s.Bounded() && s.enabled && p.receiverPlayoutDelay == Some(s.current)
    requires !(Settles(s, p, now) && s.current < s.maximum && (Pends(s, p) || ThreeRoundTrips(p) > s.current))
    ensures var loss := p.nackCount > s.evaluatedNacks || p.dropped > s.evaluatedDrops;
            var lowers := && s.current > s.minimum && ThreeRoundTrips(p) < s.current && !Lossy(p)
                          && (Pends(s, p) ==> Settles(s, p, now))
                          && (loss || (s.stableSince.Some? && now >= s.stableSince.value + 15 * SECOND));
            var lowered := Max(Max(s.current - 33 * MILLISECOND, ThreeRoundTrips(p)), s.minimum);
            ObservePlayout(s, p, now).1 == if lowers then Some(SetPlayoutDelay(lowered)) else None
  {
    RequiredDelay(s, p);
    NotRaised(s, p, now);
    var v := Unraised(s, p, now);
    assert v.current == s.current && v.minimum == s.minimum;
    if ThreeRoundTrips(p) < s.current && !p.Lossy() {
      assert s.DeadlinePressure(p) == s.StepPressure(p);
      assert v.stableSince == if s.StepPressure(p) then None
                              else if s.stableSince.Some? then s.stableSince else Some(now);
    }
  }

  lemma FollowsConfirmed(s: Playout, c: PlayoutConfiguration, run: seq<Observation>, actions: Sent, n: nat)
    requires n < |run| && n < |actions| && Invariant(s) && Mirrors(s, c, run, actions, n)
    requires s.enabled && InForce(c, run, actions, n)
    ensures ObservePlayout(s, run[n].pressure, run[n].now).1 == Policy(c, run, actions, n)
  {
    var p, now := run[n].pressure, run[n].now;
    assert Pends(s, p) == Unanswered(c, run, actions, n);
    assert Settles(s, p, now) == Movable(c, run, actions, n);
    if Raises(c, run, actions, n) { RaisesWhen(s, p, now); } else { LowersWhen(s, p, now); }
  }

  /** How the controller's memory changes with an observation it answers by `a`. */
  ghost predicate Remembers(s: Playout, p: Pressure, now: Instant, t: Playout, a: Option<Action>)
    requires s.Bounded()
  {
    var reports, moves := p.receiverPlayoutDelay == Some(s.current), Sends(a) && a.value.delay != s.current;
    && t.evaluatedNacks == p.nackCount && t.evaluatedDrops == p.dropped
    && t.stepPending == (Pends(s, p) && !Settles(s, p, now))
    && t.lastAdjustment == (if moves then Some(now) else s.lastAdjustment)
    && t.stableSince == (if !s.Calm(p) || moves then None else if s.stableSince.Some? then s.stableSince else Some(now))
    && t.lastUpdateSent == (if Sends(a) then Some(now) else if reports then None
                            else if s.lastUpdateSent.Some? then s.lastUpdateSent else Some(now))
    && t.attempts == (if reports then 0 else s.attempts) + if Sends(a) then 1 else 0
  }

  ghost predicate Moves(s: Playout, t: Playout, a: Option<Action>) {
    && t.minimum == s.minimum && t.maximum == s.maximum
    && t.current == (if Sends(a) then a.value.delay else s.current)
    && t.enabled == (s.enabled && !(a.Some? && a.value.DisableAdaptivePlayoutDelay?))
  }

  lemma SettledMoves(s: Playout, lossy: bool, required: Duration, now: Instant)
    requires s.current <= s.maximum
    ensures var (t, a) := Settled(s, lossy, required, now); Moves(s, t, a)
  {
  }

  lemma ObserveMoves(s: Playout, p: Pressure, now: Instant)
    requires s.Bounded()
    ensures var (t, a) := ObservePlayout(s, p, now); Moves(s, t, a)
  {
    if s.enabled && p.receiverPlayoutDelay == Some(s.current) {
      var v := Acknowledged(Noted(s, p), !s.DeadlinePressure(p) && !p.Lossy(), now);
      SettledMoves(v, p.Lossy(), s.Required(p), now);
    }
  }

  lemma ObserveRemembersUnconfirmed(s: Playout, p: Pressure, now: Instant)
    requires Invariant(s) && s.enabled && p.receiverPlayoutDelay != Some(s.current)
    ensures var (t, a) := ObservePlayout(s, p, now); t.enabled ==> Remembers(s, p, now, t, a)
  {
  }

  lemma SettledRemembers(s: Playout, lossy: bool, required: Duration, now: Instant)
    requires s.current <= s.maximum
    ensures var (t, a) := Settled(s, lossy, required, now);
            && t.evaluatedNacks == s.evaluatedNacks && t.evaluatedDrops == s.evaluatedDrops
            && t.stepPending == (s.stepPending && !ElapsedAtLeast(s.lastAdjustment, now, SECOND))
            && (a.Some? ==> Sends(a) && a.value.delay != s.current)
            && t.lastAdjustment == (if a.Some? then Some(now) else s.lastAdjustment)
            && t.stableSince == (if a.Some? then None else s.stableSince)
            && t.lastUpdateSent == (if a.Some? then Some(now) else s.lastUpdateSent)
            && t.attempts == (if a.Some? then 1 else s.attempts)
  {
  }

  lemma ObserveRemembersConfirmed(s: Playout, p: Pressure, now: Instant)
    requires Invariant(s) && s.enabled && p.receiverPlayoutDelay == Some(s.current)
    ensures var (t, a) := ObservePlayout(s, p, now); Remembers(s, p, now, t, a)
  {
    var v := Acknowledged(Noted(s, p), !s.DeadlinePressure(p) && !p.Lossy(), now);
    SettledRemembers(v, p.Lossy(), s.Required(p), now);
    assert v.current == s.current && v.stepPending == Pends(s, p) && v.attempts == 0 && v.lastUpdateSent.None?;
    assert v.stableSince == if !s.Calm(p) then None else if s.stableSince.Some? then s.stableSince else Some(now);
  }

  lemma MirrorsNext(s: Playout, c: PlayoutConfiguration, run: seq<Observation>, actions: Sent, n: nat, t: Playout)
    requires n < |run| && n < |actions| && Invariant(s) && Mirrors(s, c, run, actions, n)
    requires Moves(s, t, actions[n]) && (!s.enabled ==> actions[n].None?)
    requires t.enabled ==> Remembers(s, run[n].pressure, run[n].now, t, actions[n])
    ensures Mirrors(t, c, run, actions, n + 1)
  {
    var p, now := run[n].pressure, run[n].now;
    assert Adapts(actions, n + 1) == t.enabled;
    if t.enabled {
      assert Pends(s, p) == Unanswered(c, run, actions, n);
      assert Settles(s, p, now) == Movable(c, run, actions, n);
      RequiredDelay(s, p);
      assert s.Calm(p) == Quiet(c, run, actions, n);
    }
  }

  lemma {:induction false} ExecutionMirrors(c: PlayoutConfiguration, run: seq<Observation>, states: seq<Playout>,
      actions: Sent, n: nat)
    requires Execution(c, run, states, actions) && n <= |run|
    ensures Mirrors(states[n], c, run, actions, n)
  {
    if n == 0 {
    } else {
      var s, p, now := states[n - 1], run[n - 1].pressure, run[n - 1].now;
      ExecutionMirrors(c, run, states, actions, n - 1);
      ExecutionInvariant(c, run, states, actions, n - 1);
      ObserveMoves(s, p, now);
      if s.enabled {
        if p.receiverPlayoutDelay == Some(s.current) {
          ObserveRemembersConfirmed(s, p, now);
        } else {
          ObserveRemembersUnconfirmed(s, p, now);
        }
      }
      MirrorsNext(s, c, run, actions, n - 1, states[n]);
    }
  }

  /** In every execution each answer is the one the history calls for. */
  lemma FollowsPolicy(c: PlayoutConfiguration, run: seq<Observation>, states: seq<Playout>, actions: Sent, n: nat)
    requires Execution(c, run, states, actions) && n < |run|
    ensures actions[n] == Policy(c, run, actions, n)
  {
    ExecutionMirrors(c, run, states, actions, n);
    ExecutionInvariant(c, run, states, actions, n);
    assert (states[n + 1], actions[n]) == ObservePlayout(states[n], run[n].pressure, run[n].now);
    if states[n].enabled {
      if InForce(c, run, actions, n) {
        FollowsConfirmed(states[n], c, run, actions, n);
      } else {
        FollowsUnconfirmed(states[n], c, run, actions, n);
      }
    }
  }

  /** A loss was reported at some observation, and none from there on could raise the target. */
  ghost predicate LossPending(c: PlayoutConfiguration, run: seq<Observation>, actions: Sent, n: nat)
    requires n < |run| && n <= |actions|
  {
    exists i :: 0 <= i <= n && NewLoss(run, i) && forall j :: i <= j < n ==> !Movable(c, run, actions, j)
  }

  /** A loss is unanswered if and only if no observation from the one that reported it on could raise the target. */
  lemma {:induction false} UnansweredExactly(c: PlayoutConfiguration, run: seq<Observation>, actions: Sent, n: nat)
    requires n < |run| && n <= |actions|
    ensures Unanswered(c, run, actions, n) <==> LossPending(c, run, actions, n)
  {
    if n == 0 {
    } else {
      UnansweredExactly(c, run, actions, n - 1);
      if Unanswered(c, run, actions, n) && !NewLoss(run, n) {
        var i :| 0 <= i <= n - 1 && NewLoss(run, i) && forall j :: i <= j < n - 1 ==> !Movable(c, run, actions, j);
        assert forall j :: i <= j < n ==> !Movable(c, run, actions, j);
      }
      if i :| 0 <= i <= n && NewLoss(run, i) && forall j :: i <= j < n ==> !Movable(c, run, actions, j) {
        if i < n { assert !Movable(c, run, actions, n - 1); }
      }
    }
  }

  /** The controller's target is the delay it has sent last. */
  lemma TargetsOf(c: PlayoutConfiguration, run: seq<Observation>, states: seq<Playout>, actions: Sent, n: nat)
    requires Execution(c, run, states, actions) && n <= |run|
    ensures states[n].current == Target(c, actions, n)
  {
    ExecutionMirrors(c, run, states, actions, n);
  }

  /** The target goes up exactly where the history raises it. */
  lemma PolicyRaises(c: PlayoutConfiguration, run: seq<Observation>, actions: Sent, n: nat)
    requires n < |run| && n < |actions| && actions[n] == Policy(c, run, actions, n)
    ensures var target, next := Target(c, actions, n), Target(c, actions, n + 1);
            && (next > target <==> Adapts(actions, n) && Raises(c, run, actions, n))
            && (next > target ==>
                  actions[n] == Some(SetPlayoutDelay(next)) && next == RaisedTo(c, run, actions, n))
  {
  }

  lemma RaisedTargets(c: PlayoutConfiguration, run: seq<Observation>, states: seq<Playout>, actions: Sent, n: nat)
    requires Execution(c, run, states, actions) && n < |run|
    ensures var target, next := states[n].current, states[n + 1].current;
            && target == Target(c, actions, n)
            && (next > target <==> Adapts(actions, n) && Raises(c, run, actions, n))
            && (next > target ==> actions[n] == Some(SetPlayoutDelay(next)) && next == RaisedTo(c, run, actions, n))
  {
    FollowsPolicy(c, run, states, actions, n);
    PolicyRaises(c, run, actions, n);
    TargetsOf(c, run, states, actions, n);
    TargetsOf(c, run, states, actions, n + 1);
  }

  /** When the history raises the target, and to what, spelled out. */
  lemma RaisesExactly(c: PlayoutConfiguration, run: seq<Observation>, actions: Sent, n: nat)
    requires n < |run| && n <= |actions|
    ensures var target, p, last := Target(c, actions, n), run[n].pressure, LastMove(c, run, actions, n);
            var loss := LossPending(c, run, actions, n);
            && (Raises(c, run, actions, n) <==>
                  && p.receiverPlayoutDelay == Some(target)
                  && (last.Some? ==> run[n].now >= last.value + SECOND)
                  && target < UpperBound(c) && (loss || ThreeRoundTrips(p) > target))
            && RaisedTo(c, run, actions, n) ==
                 Min(UpperBound(c), Max(if loss then target + 33 * MILLISECOND else target, ThreeRoundTrips(p)))
  {
    UnansweredExactly(c, run, actions, n);
  }

  /**
   * In every execution an observation raises the target if and only if adaptation has not ended, the receiver reports
   * the target, the target has not moved for a second and is below its maximum, and a loss is unanswered or three round
   * trips exceed it. The new target is then the larger of the stepped one and the round trips, up to the maximum.
   */
  lemma RaisedExactly(c: PlayoutConfiguration, run: seq<Observation>, states: seq<Playout>, actions: Sent, n: nat)
    requires Execution(c, run, states, actions) && n < |run|
    ensures var target, p := Target(c, actions, n), run[n].pressure;
            var loss := LossPending(c, run, actions, n);
            var last := LastMove(c, run, actions, n);
            && target == states[n].current
            && (states[n + 1].current > target <==>
                  && Adapts(actions, n) && p.receiverPlayoutDelay == Some(target)
                  && (last.Some? ==> run[n].now >= last.value + SECOND)
                  && target < UpperBound(c) && (loss || ThreeRoundTrips(p) > target))
            && (states[n + 1].current > target ==>
                  && actions[n] == Some(SetPlayoutDelay(states[n + 1].current))
                  && states[n + 1].current ==
                       Min(UpperBound(c),
                           Max(if loss then target + 33 * MILLISECOND else target, ThreeRoundTrips(p))))
  {
    RaisedTargets(c, run, states, actions, n);
    RaisesExactly(c, run, actions, n);
  }
}
