/** When a Start or a Resume can succeed, and what becomes of a generation whose Start has failed. */
module StartRuns {
  import opened Common
  import opened MediaTrace
  import opened VideoSender
  import opened AudioSender
  import opened MediaSession
  import opened MediaInvariant
  import opened MediaRuns
  import Feedback

  /** The video sender, and the audio sender where there is one, are in this state. */
  predicate BothIn(s: System, state: State) {
    && s.video.active.Some? && s.video.active.value.state == state
    && (s.session.audioEnabled ==> s.audio.active.Some? && s.audio.active.value.state == state)
  }

  /** The senders are as ConfigureMedia left them. */
  predicate InFirstState(s: System) { BothIn(s, State.Configured) }

  /** The counters that Start and Resume wait on can still grow. */
  predicate CanCount(s: System)
    requires s.video.active.Some? && (s.session.audioEnabled ==> s.audio.active.Some?)
  {
    var video := s.video.active.value.statistics;
    && video.frames < U64_MAX && video.acknowledgedFrames < U64_MAX
    && (s.session.audioEnabled ==>
          video.acknowledgedAudioPackets < U64_MAX && s.audio.active.value.statistics.packets < U64_MAX)
  }

  predicate Startable(s: System, generation: u64) {
    && s.session.state.Configured? && generation != 0 && s.session.active == Some(generation) && s.session.mediaReady
    && InFirstState(s) && CanCount(s)
  }

  predicate Resumable(s: System, generation: u64) {
    && s.session.state.Suspended? && generation != 0 && s.session.active == Some(generation)
    && BothIn(s, State.Suspended) && CanCount(s)
  }

  // ----- What a Start or Resume that succeeds began with -----

  lemma {:induction false} IdleAudioKeeps(s: System, events: seq<ActorEvent>)
    requires s.audio.active.Some? ==> !s.audio.active.value.state.Streaming?
    ensures Drift(s, events).audio == s.audio
    decreases events
  {
    if events == [] {
    } else {
      IdleAudioKeeps(Happen(s, events[0]), events[1..]);
    }
  }

  lemma RaisedFromRequired(s: System, generation: Generation, transition: Transition, c: BringUpCall)
    requires Begins(s, generation, transition) && RaiseSenders(s, generation, transition, c).1.Ok?
    ensures BothIn(s, transition.Required())
  {
    var a := Drift(s, c.beforeTransition);
    DriftBegins(s, generation, transition, c.beforeTransition);
    var t := MoveVideo(a, generation, transition).0;
    MoveVideoKeeps(a, generation, transition);
    DriftKeeps(t, c.beforeAudioTransition);
  }

  lemma ConfirmedCounts(
    s: System, generation: Generation, c: BringUpCall, video: Statistics, audio: Option<AudioStatistics>)
    requires RunGraph(s, generation, c, video, audio).1.Ok?
    ensures video.frames < U64_MAX && video.acknowledgedFrames < U64_MAX
    ensures audio.Some? ==> video.acknowledgedAudioPackets < U64_MAX && audio.value.packets < U64_MAX
  {
  }

  lemma SucceedsFromRequired(s: System, generation: Generation, transition: Transition, c: BringUpCall)
    requires Begins(s, generation, transition) && BringUp(s, generation, transition, c).1.Ok?
    ensures BothIn(s, transition.Required()) && CanCount(s)
  {
    var video := StatisticsOf(s.video, generation).value;
    var t := Drift(s, c.beforeAudioStatistics);
    DriftBegins(s, generation, transition, c.beforeAudioStatistics);
    RaisedFromRequired(t, generation, transition, c);
    IdleAudioKeeps(s, c.beforeAudioStatistics);
    var u := RaiseSenders(t, generation, transition, c).0;
    var audio := if s.session.audioEnabled then Some(AudioStatisticsOf(t.audio, generation).value) else None;
    ConfirmedCounts(u, generation, c, video, audio);
  }

  // ----- A Start or Resume that succeeds -----

  const CALM := Feedback.Pressure(0, 0, 0, None, None, 0, 0, None)

  function CalmReport(a: Statistics): TransportFeedback {
    TransportFeedback(0, a.acknowledgedFrames, a.acknowledgedAudioPackets, Some(CALM), false)
  }

  function AckReport(a: Statistics): TransportFeedback {
    TransportFeedback(0, Saturating(a.acknowledgedFrames + 1), Saturating(a.acknowledgedAudioPackets + 1), None, false)
  }

  /** A sender that runs and has its transport. */
  predicate Runs(a: Actor, generation: Generation) {
    && a.active.Some? && a.active.value.generation == generation && a.active.value.state.Streaming?
    && a.active.value.sender.Some? && a.active.value.feedbackOpen
  }

  /** Once congestion has cleared a key frame is accepted. */
  lemma KeyFrameCounts(a: Actor, generation: Generation)
    requires Runs(a, generation) && a.active.value.statistics.frames < U64_MAX
    ensures var was := a.active.value.statistics;
            var b := Take(a, Reported(CalmReport(was))).0;
            var d := Take(b, Event.Unit(AccessUnit(generation, KeyFrame, []), SendAccepted)).0;
            && Runs(d, generation) && d.active.value.statistics.frames == was.frames + 1
            && d.active.value.statistics.acknowledgedFrames == was.acknowledgedFrames
            && d.active.value.statistics.acknowledgedAudioPackets == was.acknowledgedAudioPackets
  {
    var b := Take(a, Reported(CalmReport(a.active.value.statistics))).0;
    assert Runs(b, generation) && !b.active.value.pressureLimited;
  }

  lemma AcknowledgementCounts(a: Actor, generation: Generation, previous: Statistics)
    requires Runs(a, generation)
    ensures var b := Take(a, Reported(AckReport(previous))).0;
            && Runs(b, generation)
            && b.active.value.statistics.acknowledgedFrames == Saturating(previous.acknowledgedFrames + 1)
            && b.active.value.statistics.acknowledgedAudioPackets == Saturating(previous.acknowledgedAudioPackets + 1)
  {
  }

  /** What has to happen for the Start to succeed. */
  function GoodCall(generation: Generation, previous: Statistics): BringUpCall {
    BringUpCall([], [], [], [], true,
                [OfVideo(Reported(CalmReport(previous))),
                 OfVideo(Event.Unit(AccessUnit(generation, KeyFrame, []), SendAccepted))],
                [OfAudio(Packet(generation, 0, SendAccepted))],
                [OfVideo(Reported(AckReport(previous)))], [], [], [])
  }

  lemma DriftTwo(s: System, e: ActorEvent, f: ActorEvent)
    ensures Drift(s, [e]) == Happen(s, e) && Drift(s, [e, f]) == Happen(Happen(s, e), f)
  {
    assert [e][1..] == [] && [e, f][1..] == [f] && [f][1..] == [];
    assert Drift(Happen(s, e), [f]) == Happen(Happen(s, e), f);
  }

  /** Both senders run, with the statistics of before. */
  predicate Raised(s: System, generation: Generation, video: Statistics, audio: Option<AudioStatistics>) {
    && Runs(s.video, generation) && s.video.active.value.statistics == video
    && (audio.Some? ==>
          && s.audio.active.Some? && s.audio.active.value.generation == generation && s.audio.active.value.sender.Some?
          && s.audio.active.value.state.Streaming? && s.audio.active.value.statistics == audio.value)
  }

  lemma DeliveryConfirmed(s: System, generation: Generation, video: Statistics, audio: Option<AudioStatistics>)
    requires Raised(s, generation, video, audio) && video.frames < U64_MAX
    requires audio.Some? ==> audio.value.packets < U64_MAX
    ensures var (t, ok) := ConfirmDelivery(s, generation, GoodCall(generation, video), video, audio);
            ok && Runs(t.video, generation)
  {
    var c := GoodCall(generation, video);
    DriftTwo(s, c.frameWait[0], c.frameWait[1]);
    KeyFrameCounts(s.video, generation);
    DriftTwo(Drift(s, c.frameWait), c.packetWait[0], c.packetWait[0]);
  }

  lemma ReceiptConfirmed(s: System, generation: Generation, video: Statistics, audio: Option<AudioStatistics>)
    requires Runs(s.video, generation) && video.acknowledgedFrames < U64_MAX
    requires audio.Some? ==> video.acknowledgedAudioPackets < U64_MAX
    ensures ConfirmReceipt(s, generation, GoodCall(generation, video), video, audio).1
  {
    var c := GoodCall(generation, video);
    DriftTwo(s, c.ackWait[0], c.ackWait[0]);
    AcknowledgementCounts(s.video, generation, video);
  }

  lemma RequiredRaises(s: System, generation: Generation, transition: Transition, video: Statistics,
      audio: Option<AudioStatistics>)
    requires Begins(s, generation, transition) && BothIn(s, transition.Required())
    requires s.video.active.value.statistics == video && (audio.Some? <==> s.session.audioEnabled)
    requires audio.Some? ==> s.audio.active.value.sender.Some? && s.audio.active.value.statistics == audio.value
    ensures var (t, reply) := RaiseSenders(s, generation, transition, GoodCall(generation, video));
            reply.Ok? && Raised(t, generation, video, audio)
  {
  }

  lemma SucceedsWithGoodCall(s: System, generation: Generation, transition: Transition)
    requires Begins(s, generation, transition) && BothIn(s, transition.Required()) && CanCount(s)
    ensures BringUp(s, generation, transition, GoodCall(generation, s.video.active.value.statistics)).1.Ok?
  {
    var video := s.video.active.value.statistics;
    var audio := if s.session.audioEnabled then Some(s.audio.active.value.statistics) else None;
    RequiredRaises(s, generation, transition, video, audio);
    var t := RaiseSenders(s, generation, transition, GoodCall(generation, video)).0;
    DeliveryConfirmed(t, generation, video, audio);
    var u := ConfirmDelivery(t, generation, GoodCall(generation, video), video, audio).0;
    ReceiptConfirmed(u, generation, video, audio);
  }

  /** Some Start succeeds if and only if both senders are in their first state and their counters can grow. */
  lemma StartSucceedsExactly(s: System, generation: u64)
    requires Invariant(s)
    ensures (exists c :: StartMedia(s, generation, c).1.Ok?) <==> Startable(s, generation)
  {
    if Startable(s, generation) {
      SucceedsWithGoodCall(s, generation, Start);
      assert StartMedia(s, generation, GoodCall(generation, s.video.active.value.statistics)).1.Ok?;
    }
    forall c | StartMedia(s, generation, c).1.Ok? ensures Startable(s, generation) {
      SucceedsFromRequired(s, generation, Start, c);
    }
  }

  /** Some Resume succeeds if and only if both senders are suspended and their counters can grow. */
  lemma ResumeSucceedsExactly(s: System, generation: u64)
    requires Invariant(s)
    ensures (exists c :: ResumeMedia(s, generation, c).1.Ok?) <==> Resumable(s, generation)
  {
    if Resumable(s, generation) {
      SucceedsWithGoodCall(s, generation, Resume);
      assert ResumeMedia(s, generation, GoodCall(generation, s.video.active.value.statistics)).1.Ok?;
    }
    forall c | ResumeMedia(s, generation, c).1.Ok? ensures Resumable(s, generation) {
      SucceedsFromRequired(s, generation, Resume, c);
    }
  }

  // ----- A Start that fails is the last -----

  /** A generation that only StopMedia or the session's end can follow. */
  ghost predicate Spent(s: System) {
    Invariant(s) && s.session.state.Configured? && (!s.session.mediaReady || !InFirstState(s))
  }

  lemma RaiseFails(s: System, generation: Generation, c: BringUpCall)
    requires Begins(s, generation, Start) && RaiseSenders(s, generation, Start, c).1.Err?
    ensures !InFirstState(RaiseSenders(s, generation, Start, c).0)
  {
    var a := Drift(s, c.beforeTransition);
    DriftBegins(s, generation, Start, c.beforeTransition);
    var (t, moved) := MoveVideo(a, generation, Start);
    MoveVideoKeeps(a, generation, Start);
    if moved.Ok? {
      var b := Drift(t, c.beforeAudioTransition);
      DriftKeeps(t, c.beforeAudioTransition);
      var u := MoveAudio(b, generation, Start).0;
      MoveAudioKeeps(b, generation, Start);
      DriftKeeps(u, c.duringRollback);
    }
  }

  lemma RunGraphFails(
    s: System, generation: Generation, c: BringUpCall, video: Statistics, audio: Option<AudioStatistics>)
    requires Steady(s) && Running(s) && s.session.active == Some(generation)
    requires RunGraph(s, generation, c, video, audio).1.Err?
    ensures !InFirstState(RunGraph(s, generation, c, video, audio).0)
    ensures RunGraph(s, generation, c, video, audio).0.session == s.session
  {
    var t := Drift(s, c.beforeGraph);
    DriftRuns(s, c.beforeGraph);
    if !c.graphOk {
      SuspendSendersHalts(t, generation, c);
    } else {
      ConfirmRuns(t, generation, c, video, audio);
      SuspendSendersHalts(Confirm(t, generation, c, video, audio).0, generation, c);
    }
  }

  lemma BringUpFails(s: System, generation: Generation, c: BringUpCall)
    requires Begins(s, generation, Start) && BringUp(s, generation, Start, c).1.Err?
    ensures !InFirstState(BringUp(s, generation, Start, c).0)
    ensures BringUp(s, generation, Start, c).0.session == s.session
  {
    var video := StatisticsOf(s.video, generation);
    if video.Ok? {
      var t := Drift(s, c.beforeAudioStatistics);
      DriftBegins(s, generation, Start, c.beforeAudioStatistics);
      var audio := AudioStatisticsOf(t.audio, generation);
      if !s.session.audioEnabled || audio.Ok? {
        var (u, reply) := RaiseSenders(t, generation, Start, c);
        RaiseSendersKeeps(t, generation, Start, c);
        if reply.Err? {
          RaiseFails(t, generation, c);
        } else {
          RunGraphFails(u, generation, c, video.value, if s.session.audioEnabled then Some(audio.value) else None);
        }
      }
    }
  }

  /** A Start that is admitted and fails, for whatever reason, spends its generation. */
  lemma FailedStartSpends(s: System, generation: u64, c: BringUpCall)
    requires Invariant(s) && Guard(s, generation, SessionState.Configured).None? && StartMedia(s, generation, c).1.Err?
    ensures Spent(StartMedia(s, generation, c).0)
  {
    if s.session.mediaReady {
      BringUpKeeps(s, generation, Start, c);
      BringUpFails(s, generation, c);
    }
  }

  /** Neither an admitted StopMedia nor the end of the session. */
  ghost predicate Stays(s: System, op: Operation) {
    !op.ShutdownOp? && (op.StopOp? ==> s.session.active != Some(op.generation))
  }

  lemma FeedbackLeaves(s: System, c: FeedbackCall)
    ensures var t := HandleFeedback(s, c).0;
            && t.session.state == s.session.state && t.session.mediaReady == s.session.mediaReady
            && (InFirstState(t) ==> InFirstState(s))
  {
    if Heard(s) && s.session.controller.Some? {
      var (controller, actions) := Observe(s.session.controller.value, s.video.feedback, c.now);
      CarryOutAllShape(s.(session := s.session.(controller := Some(controller))), s.session.active.value, actions, c);
    }
  }

  /** In the Configured state every request but Start and an admitted StopMedia is refused. */
  lemma ConfiguredRefuses(s: System, op: Operation)
    requires s.session.state.Configured? && Stays(s, op) && !op.StartOp? && !op.ActorOp? && !op.FeedbackOp?
    ensures Apply(s, op) == s
  {
  }

  lemma SpentStays(s: System, op: Operation)
    requires Spent(s) && Stays(s, op)
    ensures Spent(Apply(s, op))
  {
    if op.StartOp? {
      StartSucceedsExactly(s, op.generation);
      if Guard(s, op.generation, SessionState.Configured).None? {
        FailedStartSpends(s, op.generation, op.bringUp);
      }
    } else if op.ActorOp? {
      HappenKeeps(s, op.event);
    } else if op.FeedbackOp? {
      HandleFeedbackKeeps(s, op.feedback);
      FeedbackLeaves(s, op.feedback);
    } else {
      ConfiguredRefuses(s, op);
    }
  }

  lemma {:induction false} SpentForGood(states: seq<System>, ops: seq<Operation>, m: nat, n: nat)
    requires IsRun(states, ops) && m <= n < |states| && Spent(states[m])
    requires forall i :: m <= i < n ==> Stays(states[i], ops[i])
    ensures Spent(states[n])
  {
    if m == n {
    } else {
      SpentForGood(states, ops, m, n - 1);
      SpentStays(states[n - 1], ops[n - 1]);
    }
  }

  /** In every run: after an admitted Start has failed no Start succeeds until its generation is stopped. */
  lemma FailedStartIsFinal(
    states: seq<System>, ops: seq<Operation>, m: nat, n: nat, generation: u64, c: BringUpCall)
    requires IsRun(states, ops) && m < n < |states| && ops[m].StartOp?
    requires Guard(states[m], ops[m].generation, SessionState.Configured).None?
    requires StartMedia(states[m], ops[m].generation, ops[m].bringUp).1.Err?
    requires forall i :: m < i < n ==> Stays(states[i], ops[i])
    ensures states[n].session.state.Configured? && StartMedia(states[n], generation, c).1.Err?
  {
    RunInvariant(states, ops, m);
    FailedStartSpends(states[m], ops[m].generation, ops[m].bringUp);
    SpentForGood(states, ops, m + 1, n);
    StartSucceedsExactly(states[n], generation);
  }

  /**
   * A run that gets there: the graph refuses to start, after which the same Start with a willing graph is refused
   * too.
   */
  lemma FailedStartHappens(c: BringUpCall) returns (states: seq<System>, ops: seq<Operation>)
    ensures IsRun(states, ops) && |ops| == 3 && ops[2].StartOp?
    ensures Startable(states[2], ops[2].generation) && !Startable(states[3], ops[2].generation)
    ensures StartMedia(states[2], ops[2].generation, ops[2].bringUp).1 == Err(GraphFailed)
    ensures states[3].session.state.Configured?
    ensures StartMedia(states[3], ops[2].generation, c).1.Err?
  {
    var call := ConfigureCall(1, true, true, false, 1, Some(Negotiation(false, 0, None)), true);
    var refused := BringUpCall([], [], [], [], false, [], [], [], [], [], []);
    ops := [Prepare(true), ConfigureOp(call), StartOp(1, refused)];
    var a := Apply(NEW_SYSTEM, ops[0]);
    var b := Apply(a, ops[1]);
    var d := Apply(b, ops[2]);
    states := [NEW_SYSTEM, a, b, d];
    assert a.session.state.Prepared? && Refusal(a, call).None?;
    assert Startable(b, 1);
    assert StartMedia(b, 1, refused).1 == Err(GraphFailed);
    FailedStartIsFinal(states, ops, 2, 3, 1, c);
    RunInvariant(states, ops, 2);
    FailedStartSpends(b, 1, refused);
  }
}
