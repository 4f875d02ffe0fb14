/** The three policies together: every list of actions the controller returns, read off its inputs and answers. */
module FeedbackPolicy {
  import opened Common
  import opened Feedback
  import opened VideoFeedback
  import opened FeedbackRuns
  import RatePolicy
  import PlayoutRuns
  import PlayoutPolicy

  /** The playout action comes last when it comes at all. */
  function DelayOf(actions: seq<Action>): Option<Action> {
    if actions == [] then None
    else
      var last := actions[|actions| - 1];
      if last.SetPlayoutDelay? || last.DisableAdaptivePlayoutDelay? then Some(last) else None
  }

  function Listed(force: bool, bitrate: Option<u64>, delay: Option<Action>): seq<Action> {
    (if force then [ForceKeyFrame] else []) + (if bitrate.Some? then [SetBitrate(bitrate.value)] else [])
    + (if delay.Some? then [delay.value] else [])
  }

  lemma ListedDelay(force: bool, bitrate: Option<u64>, delay: Option<Action>)
    requires delay.Some? ==> delay.value.SetPlayoutDelay? || delay.value.DisableAdaptivePlayoutDelay?
    ensures DelayOf(Listed(force, bitrate, delay)) == delay
  {
  }

  lemma DelayObserved(c: Controller, o: Input)
    requires c.Bounded()
    ensures var (d, actions) := Observed(c, o.snapshot, o.now);
            && (d.playout, DelayOf(actions)) == ObservePlayoutOf(c.playout, o.snapshot, o.now)
            && actions == Listed(Forces(actions), BitrateOf(actions), DelayOf(actions))
  {
    var (playout, delay) := ObservePlayoutOf(c.playout, o.snapshot, o.now);
    if o.snapshot.pressure.Some? && c.playout.Some? { PlayoutActs(c.playout.value, o.snapshot.pressure.value, o.now); }
    BitrateObserved(c, o);
    ForceObserved(c, o);
    ListedDelay(ObserveKeys(c.keys, o.snapshot.keyFrameRequests, o.now).1,
                ObserveRateOf(c.rate, o.snapshot, o.now).1, delay);
  }

  // ----- The playout part of an execution -----

  /** The observations of the playout delay: the snapshots that carry a pressure. */
  ghost function Pressured(inputs: seq<Input>, n: nat): seq<PlayoutRuns.Observation>
    requires n <= |inputs|
  {
    if n == 0 then []
    else
      var o := inputs[n - 1];
      Pressured(inputs, n - 1) +
        if o.snapshot.pressure.Some? then [PlayoutRuns.Observation(o.snapshot.pressure.value, o.now)] else []
  }

  ghost function Delays(inputs: seq<Input>, actions: seq<seq<Action>>, n: nat): (r: seq<Option<Action>>)
    requires n <= |inputs| && n <= |actions|
    ensures |r| == |Pressured(inputs, n)|
  {
    if n == 0 then []
    else
      var pressured := inputs[n - 1].snapshot.pressure.Some?;
      Delays(inputs, actions, n - 1) + if pressured then [DelayOf(actions[n - 1])] else []
  }

  lemma PlayoutExecutionSnoc(c: PlayoutConfiguration, run: seq<PlayoutRuns.Observation>, states: seq<Playout>,
      answers: seq<Option<Action>>, o: PlayoutRuns.Observation, t: Playout, a: Option<Action>)
    requires PlayoutRuns.Execution(c, run, states, answers) && states[|run|].Bounded()
    requires (t, a) == ObservePlayout(states[|run|], o.pressure, o.now)
    ensures PlayoutRuns.Execution(c, run + [o], states + [t], answers + [a])
  {
  }

  lemma {:induction false} ProjectPlayout(c: PlayoutConfiguration, inputs: seq<Input>, states: seq<Controller>,
      actions: seq<seq<Action>>, n: nat) returns (delays: seq<Playout>)
    requires Execution(inputs, states, actions) && states[0].playout == Some(NewPlayout(c)) && n <= |inputs|
    ensures PlayoutRuns.Execution(c, Pressured(inputs, n), delays, Delays(inputs, actions, n))
    ensures states[n].playout == Some(delays[|delays| - 1])
  {
    if n == 0 {
      delays := [NewPlayout(c)];
    } else {
      var before := ProjectPlayout(c, inputs, states, actions, n - 1);
      var s, o := states[n - 1], inputs[n - 1];
      assert (states[n], actions[n - 1]) == Observed(s, o.snapshot, o.now);
      DelayObserved(s, o);
      if o.snapshot.pressure.Some? {
        delays := before + [states[n].playout.value];
        var observation := PlayoutRuns.Observation(o.snapshot.pressure.value, o.now);
        PlayoutExecutionSnoc(c, Pressured(inputs, n - 1), before, Delays(inputs, actions, n - 1), observation,
                             states[n].playout.value, DelayOf(actions[n - 1]));
      } else {
        delays := before;
      }
    }
  }

  // ----- Everything the controller does -----

  ghost predicate Starts(c: Controller, configured: u64, minimum: u64, playout: Option<PlayoutConfiguration>) {
    configured > 0 && c == NewController(configured, minimum, playout)
  }

  ghost function Rates(states: seq<Controller>): seq<Rate> {
    seq(|states|, i requires 0 <= i < |states| => states[i].rate)
  }

  ghost function KeysOf(states: seq<Controller>): seq<Keys> {
    seq(|states|, i requires 0 <= i < |states| => states[i].keys)
  }

  ghost function Changes(actions: seq<seq<Action>>): seq<Option<u64>> {
    seq(|actions|, i requires 0 <= i < |actions| => BitrateOf(actions[i]))
  }

  ghost function Forced(actions: seq<seq<Action>>): seq<bool> {
    seq(|actions|, i requires 0 <= i < |actions| => Forces(actions[i]))
  }

  /** What the playout delay's history calls for, if the delay adapts and the snapshot carries a pressure. */
  ghost function NextDelay(playout: Option<PlayoutConfiguration>, inputs: seq<Input>, actions: seq<seq<Action>>, n: nat)
    : Option<Action>
    requires n < |inputs| && n < |actions|
  {
    if playout.None? || inputs[n].snapshot.pressure.None? then None
    else PlayoutPolicy.Policy(playout.value, Pressured(inputs, n + 1), Delays(inputs, actions, n + 1),
                              |Pressured(inputs, n)|)
  }

  lemma {:induction false} NeverAdapts(inputs: seq<Input>, states: seq<Controller>, actions: seq<seq<Action>>, n: nat)
    requires Execution(inputs, states, actions) && states[0].playout.None? && n <= |inputs|
    ensures states[n].playout.None?
  {
    if n == 0 {
    } else {
      NeverAdapts(inputs, states, actions, n - 1);
      assert (states[n], actions[n - 1]) == Observed(states[n - 1], inputs[n - 1].snapshot, inputs[n - 1].now);
    }
  }

  lemma DelayFollowsPolicy(configured: u64, minimum: u64, playout: Option<PlayoutConfiguration>, inputs: seq<Input>,
      states: seq<Controller>, actions: seq<seq<Action>>, n: nat)
    requires Execution(inputs, states, actions) && Starts(states[0], configured, minimum, playout) && n < |inputs|
    ensures DelayOf(actions[n]) == NextDelay(playout, inputs, actions, n)
  {
    assert (states[n + 1], actions[n]) == Observed(states[n], inputs[n].snapshot, inputs[n].now);
    DelayObserved(states[n], inputs[n]);
    if playout.None? {
      NeverAdapts(inputs, states, actions, n);
    } else if inputs[n].snapshot.pressure.Some? {
      var delays := ProjectPlayout(playout.value, inputs, states, actions, n + 1);
      PlayoutPolicy.FollowsPolicy(playout.value, Pressured(inputs, n + 1), delays, Delays(inputs, actions, n + 1),
                                  |Pressured(inputs, n)|);
    }
  }

  /**
   * In every execution of a fresh controller the actions at a snapshot are, in this order, a key frame, a bitrate and a
   * playout delay, each exactly when and as its history calls for it.
   */
  lemma ActionsExactly(configured: u64, minimum: u64, playout: Option<PlayoutConfiguration>, inputs: seq<Input>,
      states: seq<Controller>, actions: seq<seq<Action>>, n: nat)
    requires Execution(inputs, states, actions) && Starts(states[0], configured, minimum, playout) && n < |inputs|
    ensures var last := RatePolicy.LastForced(inputs, Forced(actions), n);
            var requests := inputs[n].snapshot.keyFrameRequests;
            var force := if last.None? then requests > 0
                         else requests > last.value.snapshot.keyFrameRequests
                              && inputs[n].now >= last.value.now + 500 * MILLISECOND;
            actions[n] == Listed(force, RatePolicy.NextBitrate(configured, minimum, inputs, Changes(actions), n),
                                 NextDelay(playout, inputs, actions, n))
  {
    assert (states[n + 1], actions[n]) == Observed(states[n], inputs[n].snapshot, inputs[n].now);
    DelayObserved(states[n], inputs[n]);
    DelayFollowsPolicy(configured, minimum, playout, inputs, states, actions, n);
    ProjectRate(inputs, states, actions, Rates(states), Changes(actions));
    RatePolicy.BitrateFollowsPolicy(configured, minimum, inputs, Rates(states), Changes(actions), n);
    ProjectKeys(inputs, states, actions, KeysOf(states), Forced(actions));
    RatePolicy.ForcedExactly(inputs, KeysOf(states), Forced(actions), n);
  }
}
