/** The playout-delay controller over whole sequences of observations. */
module PlayoutRuns {
  import opened Common
  import opened Feedback

  datatype Observation = Observation(pressure: Pressure, now: Instant)

  /** What every observation keeps. */
  ghost predicate Invariant(s: Playout) {
    && s.Bounded()
    && s.attempts <= MAXIMUM_PLAYOUT_UPDATE_ATTEMPTS
    && (s.confirmed ==> s.attempts == 0 && s.lastUpdateSent.None?)
    && (s.stableSince.Some? ==> s.confirmed)
  }

  ghost predicate Reports(s: Playout, o: Observation) {
    o.pressure.receiverPlayoutDelay == Some(s.current)
  }

  ghost predicate Sends(a: Option<Action>) { a.Some? && a.value.SetPlayoutDelay? }

  /**
   * The branch that lowers the target although the observation reports loss: the step it asks for is swallowed at the
   * ceiling.
   */
  ghost predicate SwallowedStep(s: Playout, o: Observation)
    requires s.Bounded()
  {
    && s.enabled && Reports(s, o) && s.StepPressure(o.pressure) && !o.pressure.Lossy()
    && ElapsedAtLeast(s.lastAdjustment, o.now, PLAYOUT_ADJUSTMENT_INTERVAL)
    && s.current == s.maximum && s.minimum < s.maximum && s.Required(o.pressure) < s.maximum
  }

  // ----- One observation -----

  /** Sends are counted since the last report and spaced from the last send. */
  ghost predicate HandshakeStep(s: Playout, o: Observation, t: Playout, a: Option<Action>) {
    && (t.enabled <==> !(a.Some? && a.value.DisableAdaptivePlayoutDelay?))
    && t.attempts == (if Reports(s, o) then 0 else s.attempts) + (if Sends(a) then 1 else 0)
    && (Sends(a) ==> t.lastUpdateSent == Some(o.now))
    && (!Reports(s, o) && s.lastUpdateSent.Some? ==>
          && (Sends(a) ==> o.now >= s.lastUpdateSent.value + PLAYOUT_UPDATE_RETRY_INTERVAL)
          && t.lastUpdateSent.Some? && t.lastUpdateSent.value >= s.lastUpdateSent.value)
  }

  /** The stability clock runs only while all is calm, and lowering needs it or the swallowed-step branch. */
  ghost predicate RecoveryStep(s: Playout, o: Observation, t: Playout)
    requires s.Bounded()
  {
    && (t.stableSince.Some? ==>
        s.Calm(o.pressure) && t.current == s.current && t.stableSince in {s.stableSince, Some(o.now)})
    && (t.current < s.current && s.Calm(o.pressure) ==>
          s.stableSince.Some? && o.now >= s.stableSince.value + PLAYOUT_RECOVERY_INTERVAL)
    && (t.current < s.current && !s.Calm(o.pressure) <==> SwallowedStep(s, o))
  }

  ghost predicate StepFacts(s: Playout, o: Observation, t: Playout, a: Option<Action>) {
    && Invariant(s) && Invariant(t) && t.minimum == s.minimum && t.maximum == s.maximum
    && (t.current != s.current ==> Reports(s, o))
    && (Sends(a) ==> a.value.delay == t.current)
    && if s.enabled then HandshakeStep(s, o, t, a) && RecoveryStep(s, o, t) else t == s && a.None?
  }

  lemma ObserveUnconfirmed(s: Playout, o: Observation)
    requires Invariant(s) && s.enabled && !Reports(s, o)
    ensures var (t, a) := ObservePlayout(s, o.pressure, o.now); StepFacts(s, o, t, a)
  {
  }

  lemma ObserveConfirmed(s: Playout, o: Observation)
    requires Invariant(s) && s.enabled && Reports(s, o)
    ensures var (t, a) := ObservePlayout(s, o.pressure, o.now);
            && Invariant(t) && t.minimum == s.minimum && t.maximum == s.maximum
            && (Sends(a) ==> a.value.delay == t.current) && HandshakeStep(s, o, t, a)
  {
  }

  lemma ObserveRecovers(s: Playout, o: Observation)
    requires Invariant(s) && s.enabled && Reports(s, o)
    ensures RecoveryStep(s, o, ObservePlayout(s, o.pressure, o.now).0)
  {
  }

  lemma ObserveFacts(s: Playout, o: Observation)
    requires Invariant(s)
    ensures var (t, a) := ObservePlayout(s, o.pressure, o.now); StepFacts(s, o, t, a)
  {
    if s.enabled {
      if Reports(s, o) {
        ObserveConfirmed(s, o);
        ObserveRecovers(s, o);
      } else {
        ObserveUnconfirmed(s, o);
      }
    }
  }

  // ----- Runs -----

  /** A controller fed the observations of `run`: its states and the actions it returns. */
  ghost predicate Execution(c: PlayoutConfiguration, run: seq<Observation>, states: seq<Playout>,
      actions: seq<Option<Action>>) {
    && |states| == |run| + 1 && |actions| == |run| && states[0] == NewPlayout(c)
    && forall i :: 0 <= i < |run| ==>
         states[i].Bounded() && (states[i + 1], actions[i]) == ObservePlayout(states[i], run[i].pressure, run[i].now)
  }

  ghost predicate Facts(run: seq<Observation>, states: seq<Playout>, actions: seq<Option<Action>>) {
    && |states| == |run| + 1 && |actions| == |run|
    && Invariant(states[0]) && states[0].stableSince.None? && states[0].attempts == 0
    && forall i :: 0 <= i < |run| ==> StepFacts(states[i], run[i], states[i + 1], actions[i])
  }

  lemma {:induction false} ExecutionInvariant(c: PlayoutConfiguration, run: seq<Observation>, states: seq<Playout>,
      actions: seq<Option<Action>>, n: nat)
    requires Execution(c, run, states, actions) && n <= |run|
    ensures Invariant(states[n])
  {
    if n == 0 {
    } else {
      ExecutionInvariant(c, run, states, actions, n - 1);
      ObserveFacts(states[n - 1], run[n - 1]);
    }
  }

  lemma ExecutionFacts(c: PlayoutConfiguration, run: seq<Observation>, states: seq<Playout>,
      actions: seq<Option<Action>>)
    requires Execution(c, run, states, actions)
    ensures Facts(run, states, actions)
  {
    forall i | 0 <= i < |run| ensures StepFacts(states[i], run[i], states[i + 1], actions[i]) {
      ExecutionInvariant(c, run, states, actions, i);
      ObserveFacts(states[i], run[i]);
    }
  }

  lemma {:induction false} BoundsKept(run: seq<Observation>, states: seq<Playout>, actions: seq<Option<Action>>, n: nat)
    requires Facts(run, states, actions) && n <= |run|
    ensures states[n].minimum == states[0].minimum && states[n].maximum == states[0].maximum && states[n].Bounded()
  {
    if n == 0 {
    } else {
      BoundsKept(run, states, actions, n - 1);
    }
  }

  /**
   * In every run the target stays within the bounds of the configuration and moves only when the receiver reports it.
   */
  lemma TargetMovesOnConfirmation(c: PlayoutConfiguration, run: seq<Observation>, states: seq<Playout>,
      actions: seq<Option<Action>>, n: nat)
    requires Execution(c, run, states, actions) && n < |run|
    ensures NewPlayout(c).minimum <= states[n].current <= NewPlayout(c).maximum
    ensures states[n + 1].current != states[n].current ==>
              run[n].pressure.receiverPlayoutDelay == Some(states[n].current)
  {
    ExecutionFacts(c, run, states, actions);
    BoundsKept(run, states, actions, n);
  }

  /** How often the target has been sent since the receiver last reported it. */
  ghost function SentSinceReport(run: seq<Observation>, states: seq<Playout>, actions: seq<Option<Action>>, n: nat): nat
    requires |states| == |run| + 1 && |actions| == |run| && n <= |run|
  {
    if n == 0 then 0
    else (if Reports(states[n - 1], run[n - 1]) then 0 else SentSinceReport(run, states, actions, n - 1))
         + (if Sends(actions[n - 1]) then 1 else 0)
  }

  lemma {:induction false} AttemptsCount(run: seq<Observation>, states: seq<Playout>, actions: seq<Option<Action>>,
      n: nat)
    requires Facts(run, states, actions) && n <= |run|
    ensures SentSinceReport(run, states, actions, n) <= MAXIMUM_PLAYOUT_UPDATE_ATTEMPTS
    ensures states[n].enabled ==> SentSinceReport(run, states, actions, n) == states[n].attempts
  {
    if n == 0 {
    } else {
      AttemptsCount(run, states, actions, n - 1);
      assert StepFacts(states[n - 1], run[n - 1], states[n - 1 + 1], actions[n - 1]);
    }
  }

  /** No target is sent more than three times before the receiver reports it. */
  lemma ThreeSendsPerHandshake(c: PlayoutConfiguration, run: seq<Observation>, states: seq<Playout>,
      actions: seq<Option<Action>>, n: nat)
    requires Execution(c, run, states, actions) && n <= |run|
    ensures SentSinceReport(run, states, actions, n) <= MAXIMUM_PLAYOUT_UPDATE_ATTEMPTS
  {
    ExecutionFacts(c, run, states, actions);
    AttemptsCount(run, states, actions, n);
  }

  ghost predicate Unreported(run: seq<Observation>, states: seq<Playout>, first: nat, last: nat)
    requires last <= |run| < |states|
  {
    forall i :: first <= i < last ==> !Reports(states[i], run[i])
  }

  lemma {:induction false} LastUpdateCovers(run: seq<Observation>, states: seq<Playout>, actions: seq<Option<Action>>,
      m: nat, n: nat)
    requires Facts(run, states, actions) && m < n <= |run| && Sends(actions[m]) && Unreported(run, states, m + 1, n)
               && states[n].enabled
    ensures states[n].lastUpdateSent.Some? && states[n].lastUpdateSent.value >= run[m].now
  {
    if m == n - 1 {
    } else {
      LastUpdateCovers(run, states, actions, m, n - 1);
    }
  }

  /** Two sends of one handshake are at least two seconds apart. */
  lemma RetriesAreSpaced(c: PlayoutConfiguration, run: seq<Observation>, states: seq<Playout>,
      actions: seq<Option<Action>>, m: nat, n: nat)
    requires Execution(c, run, states, actions) && m < n < |run|
    requires Sends(actions[m]) && Sends(actions[n]) && Unreported(run, states, m + 1, n + 1)
    ensures run[n].now >= run[m].now + PLAYOUT_UPDATE_RETRY_INTERVAL
  {
    ExecutionFacts(c, run, states, actions);
    assert StepFacts(states[n], run[n], states[n + 1], actions[n]);
    LastUpdateCovers(run, states, actions, m, n);
    assert !Reports(states[n], run[n]);
  }

  lemma {:induction false} StaysDisabled(run: seq<Observation>, states: seq<Playout>, actions: seq<Option<Action>>,
      m: nat, n: nat)
    requires Facts(run, states, actions) && m <= n <= |run| && !states[m].enabled
    ensures !states[n].enabled && (n < |run| ==> actions[n].None?)
  {
    if m == n {
    } else {
      StaysDisabled(run, states, actions, m, n - 1);
    }
    if n < |run| { assert StepFacts(states[n], run[n], states[n + 1], actions[n]); }
  }

  /** Once adaptation is disabled nothing is ever sent again. */
  lemma SilentAfterDisable(c: PlayoutConfiguration, run: seq<Observation>, states: seq<Playout>,
      actions: seq<Option<Action>>, m: nat, n: nat)
    requires Execution(c, run, states, actions) && m < n < |run|
    requires actions[m].Some? && actions[m].value.DisableAdaptivePlayoutDelay?
    ensures actions[n].None?
  {
    ExecutionFacts(c, run, states, actions);
    StaysDisabled(run, states, actions, m + 1, n);
  }

  // ----- Recovery -----

  /** From observation `first` on, the receiver has reported an unchanged target and nothing spoke against it. */
  ghost predicate StableOver(run: seq<Observation>, states: seq<Playout>, first: nat, n: nat)
    requires n <= |run| < |states|
  {
    first < n && forall i :: first <= i < n ==>
      states[i].Bounded() && states[i].Calm(run[i].pressure) && states[i].current == states[n].current
  }

  /** The stability clock shows the time of an observation since which everything was calm. */
  lemma {:induction false} StableSinceIsStable(run: seq<Observation>, states: seq<Playout>,
      actions: seq<Option<Action>>, n: nat) returns (first: nat)
    requires Facts(run, states, actions) && n <= |run| && states[n].enabled && states[n].stableSince.Some?
    ensures StableOver(run, states, first, n) && run[first].now == states[n].stableSince.value
  {
    assert n > 0;
    assert StepFacts(states[n - 1], run[n - 1], states[n - 1 + 1], actions[n - 1]);
    if states[n].stableSince == Some(run[n - 1].now) {
      first := n - 1;
    } else {
      first := StableSinceIsStable(run, states, actions, n - 1);
    }
  }

  /** 15 seconds of confirmed, undisturbed stability that end with observation `n`. */
  ghost predicate Recovered(run: seq<Observation>, states: seq<Playout>, n: nat)
    requires n < |run| < |states|
  {
    && states[n].Bounded() && states[n].Calm(run[n].pressure)
    && exists first: nat :: StableOver(run, states, first, n)
        && run[n].now >= run[first].now + PLAYOUT_RECOVERY_INTERVAL
  }

  lemma LowerIsRecovery(run: seq<Observation>, states: seq<Playout>, actions: seq<Option<Action>>, n: nat)
    requires Facts(run, states, actions) && n < |run| && states[n + 1].current < states[n].current
    ensures Recovered(run, states, n) <==> !SwallowedStep(states[n], run[n])
  {
    assert StepFacts(states[n], run[n], states[n + 1], actions[n]);
    if states[n].Calm(run[n].pressure) {
      var first := StableSinceIsStable(run, states, actions, n);
    }
  }

  ghost predicate LowersAt(states: seq<Playout>, n: nat)
    requires n + 1 < |states|
  {
    states[n + 1].current < states[n].current
  }

  ghost predicate SwallowsAt(run: seq<Observation>, states: seq<Playout>, n: nat)
    requires n < |run| < |states|
  {
    states[n].Bounded() && SwallowedStep(states[n], run[n])
  }

  /**
   * The target is meant to be lowered only after 15 seconds of stability. A run keeps to that exactly when no
   * observation of it meets the swallowed-step branch.
   */
  lemma RecoveryExactly(c: PlayoutConfiguration, run: seq<Observation>, states: seq<Playout>,
      actions: seq<Option<Action>>)
    requires Execution(c, run, states, actions)
    ensures (forall n :: 0 <= n < |run| && LowersAt(states, n) ==> Recovered(run, states, n))
            <==> (forall n :: 0 <= n < |run| ==> !SwallowsAt(run, states, n))
  {
    ExecutionFacts(c, run, states, actions);
    forall n | 0 <= n < |run|
      ensures LowersAt(states, n) ==> (Recovered(run, states, n) <==> !SwallowsAt(run, states, n))
      ensures SwallowsAt(run, states, n) ==> LowersAt(states, n)
    {
      assert StepFacts(states[n], run[n], states[n + 1], actions[n]);
      if LowersAt(states, n) { LowerIsRecovery(run, states, actions, n); }
    }
  }

  /** The branch is reachable: a receiver limit of 66 ms and one retransmission halve the delay at once. */
  lemma SwallowedStepHappens()
    ensures var c := PlayoutConfiguration(17 * MILLISECOND, 66 * MILLISECOND, Some(66 * MILLISECOND));
            var o := Observation(Pressure(0, 0, 0, None, Some(66 * MILLISECOND), 1, 0, None), 0);
            var (t, a) := ObservePlayout(NewPlayout(c), o.pressure, o.now);
            && Execution(c, [o], [NewPlayout(c), t], [a])
            && SwallowedStep(NewPlayout(c), o) && t.current == 33 * MILLISECOND
  {
  }
}
