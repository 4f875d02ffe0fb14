/** How every request of the session is answered, and the state it leaves behind. */
module Lifecycle {
  import opened Common
  import opened MediaTrace
  import opened VideoSender
  import opened AudioSender
  import opened MediaSession
  import opened MediaInvariant
  import opened MediaRuns
  import opened StartRuns
  import VideoFeedback

  /** The video sender, or the audio sender where there is one, has failed. */
  predicate SomeFailed(s: System) {
    || (s.video.active.Some? && s.video.active.value.state.Failed?)
    || (s.session.audioEnabled && s.audio.active.Some? && s.audio.active.value.state.Failed?)
  }

  // ----- Suspend -----

  lemma SuspendedAudio(s: System, generation: Generation, c: SuspendCall)
    requires Invariant(s) && s.session.state.Streaming? && s.session.active == Some(generation)
    ensures var (t, moved) := MoveAudio(Drift(s, c.beforeAudio), generation, Suspend);
            && Steady(t) && t.session == s.session && t.video.active.Some?
            && (t.video.active.value.state.Streaming? || t.video.active.value.state.Failed?)
            && (SomeFailed(s) ==> SomeFailed(t))
            && (moved.Err? ==> moved.error == WrongState && SomeFailed(t))
            && (moved.Ok? && t.session.audioEnabled ==>
                  t.audio.active.Some? && t.audio.active.value.state.Suspended?)
  {
    DriftKeeps(s, c.beforeAudio);
    MoveAudioKeeps(Drift(s, c.beforeAudio), generation, Suspend);
  }

  lemma SuspendedVideo(t: System, generation: Generation, c: SuspendCall)
    requires Steady(t) && t.session.active == Some(generation) && t.video.active.Some?
    requires t.video.active.value.state.Streaming? || t.video.active.value.state.Failed?
    requires t.session.audioEnabled ==> t.audio.active.Some? && t.audio.active.value.state.Suspended?
    ensures var (u, moved) := MoveVideo(Drift(t, c.beforeVideo), generation, Suspend);
            && u.session == t.session && (SomeFailed(t) ==> moved.Err?)
            && if moved.Err? then
                 var v := MoveAudio(Drift(u, c.beforeRollback), generation, Resume).0;
                 moved.error == WrongState && SomeFailed(v) && v.session == t.session
               else BothIn(u, State.Suspended)
  {
    var b := Drift(t, c.beforeVideo);
    DriftKeeps(t, c.beforeVideo);
    IdleAudioKeeps(t, c.beforeVideo);
    var u := MoveVideo(b, generation, Suspend).0;
    DriftDrifts(u, c.beforeRollback);
  }

  /**
   * Suspend changes nothing unless the session streams and the graph agrees. It then succeeds with every sender
   * suspended, or fails for a sender that has failed and leaves the session as it was.
   */
  ghost predicate Suspends(s: System, c: SuspendCall, t: System, reply: Reply) {
    if !s.session.state.Streaming? then t == s && reply == Err(WrongTransition)
    else if !c.graphOk then t == s && reply == Err(GraphFailed)
    else if reply.Ok? then t.session == s.session.(state := SessionState.Suspended) && BothIn(t, State.Suspended)
    else reply == Err(SenderFailed(WrongState)) && t.session == s.session && SomeFailed(t)
  }

  lemma SuspendExactly(s: System, c: SuspendCall)
    requires Invariant(s)
    ensures var (t, reply) := SuspendMedia(s, c); Suspends(s, c, t, reply)
    ensures SomeFailed(s) ==> SuspendMedia(s, c).1.Err?
  {
    if s.session.state.Streaming? && c.graphOk {
      var generation := s.session.active.value;
      SuspendedAudio(s, generation, c);
      var (t, moved) := MoveAudio(Drift(s, c.beforeAudio), generation, Suspend);
      if moved.Ok? { SuspendedVideo(t, generation, c); }
    }
  }

  /** Some Suspend succeeds if and only if the session streams and no sender has failed. */
  lemma SuspendSucceedsExactly(s: System)
    requires Invariant(s)
    ensures (exists c :: SuspendMedia(s, c).1.Ok?) <==> s.session.state.Streaming? && !SomeFailed(s)
  {
    if s.session.state.Streaming? && !SomeFailed(s) {
      var c := SuspendCall(true, [], [], []);
      SuspendExactly(s, c);
      assert SuspendMedia(s, c).1.Ok?;
    }
    forall c | SuspendMedia(s, c).1.Ok? ensures s.session.state.Streaming? && !SomeFailed(s) { SuspendExactly(s, c); }
  }

  // ----- Start and Resume -----

  /** Neither sender runs. */
  predicate NoneRuns(s: System) {
    && (s.video.active.Some? ==> !s.video.active.value.state.Streaming?)
    && (s.audio.active.Some? ==> !s.audio.active.value.state.Streaming?)
  }

  /** The video sender runs, and the audio sender does unless it has failed since. */
  predicate BothRun(s: System) {
    && s.video.active.Some? && s.video.active.value.state.Streaming?
    && (s.session.audioEnabled ==>
          s.audio.active.Some? && (s.audio.active.value.state.Streaming? || s.audio.active.value.state.Failed?))
  }

  /** A sender is not in the state the transition requires, or not any more. */
  predicate OutOfStep(s: System, t: System, transition: Transition) {
    !BothIn(s, transition.Required()) || SomeFailed(t)
  }

  lemma RaiseAnswers(s: System, generation: Generation, transition: Transition, c: BringUpCall)
    requires Begins(s, generation, transition)
    ensures var (u, reply) := RaiseSenders(s, generation, transition, c);
            && (SomeFailed(s) ==> SomeFailed(u))
            && (reply.Err? ==> reply.error == SenderFailed(WrongState) && OutOfStep(s, u, transition))
  {
    var a := Drift(s, c.beforeTransition);
    DriftBegins(s, generation, transition, c.beforeTransition);
    var (t, moved) := MoveVideo(a, generation, transition);
    MoveVideoKeeps(a, generation, transition);
    if moved.Ok? {
      var b := Drift(t, c.beforeAudioTransition);
      DriftKeeps(t, c.beforeAudioTransition);
      var u := MoveAudio(b, generation, transition).0;
      DriftDrifts(u, c.duringRollback);
    }
  }

  lemma ConfirmedRuns(
    s: System, generation: Generation, c: BringUpCall, video: Statistics, audio: Option<AudioStatistics>)
    requires Steady(s) && Running(s) && Confirm(s, generation, c, video, audio).1
    ensures BothRun(Confirm(s, generation, c, video, audio).0)
  {
    ConfirmRuns(s, generation, c, video, audio);
  }

  lemma GraphAnswers(
    s: System, generation: Generation, c: BringUpCall, video: Statistics, audio: Option<AudioStatistics>)
    requires Steady(s) && Running(s) && s.session.active == Some(generation)
    ensures var (t, reply) := RunGraph(s, generation, c, video, audio);
            if reply.Ok? then
              c.graphOk && t.session == s.session.(state := SessionState.Streaming) && BothRun(t)
            else
              && reply == Err(if c.graphOk then Unconfirmed else GraphFailed)
              && t.session == s.session && NoneRuns(t)
  {
    var t := Drift(s, c.beforeGraph);
    DriftRuns(s, c.beforeGraph);
    if !c.graphOk {
      SuspendSendersHalts(t, generation, c);
    } else {
      var (u, confirmed) := Confirm(t, generation, c, video, audio);
      ConfirmRuns(t, generation, c, video, audio);
      if confirmed { ConfirmedRuns(t, generation, c, video, audio); } else { SuspendSendersHalts(u, generation, c); }
    }
  }

  /** The answer names what went wrong, and a failure leaves the session as it was and no sender running. */
  ghost predicate Answers(s: System, t: System, reply: Reply, transition: Transition, graphOk: bool) {
    if reply.Ok? then graphOk && t.session == s.session.(state := SessionState.Streaming) && BothRun(t)
    else
      && t.session == s.session && NoneRuns(t)
      && (|| reply == Err(if graphOk then Unconfirmed else GraphFailed)
          || (reply == Err(SenderFailed(WrongState)) && OutOfStep(s, t, transition)))
  }

  lemma DriftedOutOfStep(s: System, t: System, u: System, transition: Transition)
    requires Drifted(s, t) && OutOfStep(t, u, transition) && (SomeFailed(t) ==> SomeFailed(u))
    ensures OutOfStep(s, u, transition)
  {
  }

  /** The statistics have been read; the senders and the graph are next. */
  lemma RaisedAnswers(s: System, t: System, generation: Generation, transition: Transition, c: BringUpCall,
      video: Statistics, audio: Option<AudioStatistics>)
    requires Begins(t, generation, transition) && Drifted(s, t)
    ensures var (u, reply) := RaiseSenders(t, generation, transition, c);
            if reply.Err? then Answers(s, u, reply, transition, c.graphOk)
            else
              var (v, answer) := RunGraph(u, generation, c, video, audio);
              Answers(s, v, answer, transition, c.graphOk)
  {
    var (u, reply) := RaiseSenders(t, generation, transition, c);
    RaiseSendersKeeps(t, generation, transition, c);
    if reply.Err? {
      RaiseAnswers(t, generation, transition, c);
      DriftedOutOfStep(s, t, u, transition);
    } else {
      GraphAnswers(u, generation, c, video, audio);
    }
  }

  lemma BringUpAnswers(s: System, generation: Generation, transition: Transition, c: BringUpCall)
    requires Begins(s, generation, transition)
    ensures var (t, reply) := BringUp(s, generation, transition, c); Answers(s, t, reply, transition, c.graphOk)
  {
    var video := StatisticsOf(s.video, generation);
    if video.Ok? {
      var t := Drift(s, c.beforeAudioStatistics);
      DriftBegins(s, generation, transition, c.beforeAudioStatistics);
      var audio := AudioStatisticsOf(t.audio, generation);
      if !s.session.audioEnabled || audio.Ok? {
        RaisedAnswers(s, t, generation, transition, c, video.value,
                      if s.session.audioEnabled then Some(audio.value) else None);
      }
    }
  }

  /** Resume, refused outright or answered after its attempt. */
  ghost predicate Resumes(s: System, generation: u64, c: BringUpCall, t: System, reply: Reply) {
    if !s.session.state.Suspended? then t == s && reply == Err(WrongTransition)
    else if generation == 0 || s.session.active != Some(generation) then t == s && reply == Err(InvalidRequest)
    else Answers(s, t, reply, Resume, c.graphOk)
  }

  lemma ResumeExactly(s: System, generation: u64, c: BringUpCall)
    requires Invariant(s)
    ensures var (t, reply) := ResumeMedia(s, generation, c); Resumes(s, generation, c, t, reply)
  {
    if s.session.state.Suspended? && generation != 0 && s.session.active == Some(generation) {
      BringUpAnswers(s, generation, Resume, c);
    }
  }

  /** Start, refused outright or answered after its attempt. */
  ghost predicate Starts(s: System, generation: u64, c: BringUpCall, t: System, reply: Reply) {
    if !s.session.state.Configured? then t == s && reply == Err(WrongTransition)
    else if generation == 0 || s.session.active != Some(generation) then t == s && reply == Err(InvalidRequest)
    else if !s.session.mediaReady then t == s && reply == Err(GraphFailed)
    else Answers(s, t, reply, Start, c.graphOk)
  }

  lemma StartExactly(s: System, generation: u64, c: BringUpCall)
    requires Invariant(s)
    ensures var (t, reply) := StartMedia(s, generation, c); Starts(s, generation, c, t, reply)
  {
    if s.session.state.Configured? && generation != 0 && s.session.active == Some(generation) && s.session.mediaReady {
      BringUpAnswers(s, generation, Start, c);
    }
  }

  // ----- Prepare and ConfigureMedia -----

  /** A session is new until the first valid Prepare or its end. */
  lemma {:induction false} CreatedUntilPrepared(states: seq<System>, ops: seq<Operation>, n: nat)
    requires IsRun(states, ops) && n < |states|
    ensures states[n].session.state.Created? <==>
              forall i :: 0 <= i < n ==> !ops[i].ShutdownOp? && ops[i] != Prepare(true)
  {
    if n == 0 {
    } else {
      CreatedUntilPrepared(states, ops, n - 1);
      var s, op := states[n - 1], ops[n - 1];
      RunInvariant(states, ops, n - 1);
      StateMoves(s, op);
    }
  }

  /** Only Prepare and the end of the session leave the first state, and nothing returns to it. */
  lemma StateMoves(s: System, op: Operation)
    requires Invariant(s)
    ensures Apply(s, op).session.state.Created? <==> s.session.state.Created? && !op.ShutdownOp? && op != Prepare(true)
  {
    match op {
      case StartOp(generation, c) => TransitionMoves(s, op);
      case ResumeOp(generation, c) => TransitionMoves(s, op);
      case SuspendOp(c) => TransitionMoves(s, op);
      case FeedbackOp(c) => FeedbackLeaves(s, c);
      case ActorOp(e) => HappenDrifts(s, e);
      case ConfigureOp(c) => ConfigureExactly(s, c);
      case StopOp(generation, c) => StopExactly(s, generation, c);
      case ShutdownOp(c) =>
      case Prepare(valid) =>
    }
  }

  lemma TransitionMoves(s: System, op: Operation)
    requires Invariant(s) && (op.StartOp? || op.ResumeOp? || op.SuspendOp?)
    ensures Apply(s, op).session.state.Created? <==> s.session.state.Created?
  {
    match op {
      case StartOp(generation, c) => StartExactly(s, generation, c);
      case ResumeOp(generation, c) => ResumeExactly(s, generation, c);
      case SuspendOp(c) => SuspendExactly(s, c);
    }
  }

  /** The request is well formed, supported and newer than anything completed. */
  predicate Admissible(s: System, c: ConfigureCall) {
    && c.wellFormed && c.supported && c.generation != 0
    && (s.session.completed.Some? ==> c.generation > s.session.completed.value)
  }

  /** Both actors hold their senders of this negotiation, and the session knows it. */
  predicate SetUp(s: System, c: ConfigureCall, sender: nat) {
    && s.session.mediaReady && s.session.graphReceived && s.session.transportActive && s.session.senderReceived
    && s.session.audioReceived == s.session.audioEnabled == c.audioEnabled && BothIn(s, State.Configured)
    && s.video.active.value.generation == c.generation && s.video.active.value.sender == Some(sender)
    && (c.audioEnabled ==>
          s.audio.active.value.generation == c.generation && s.audio.active.value.sender == Some(sender))
  }

  /** Neither actor holds a generation, nor has completed one as new. */
  predicate Vacant(s: System, generation: Generation) {
    && s.video.active.None? && !NotNewerThan(generation, s.video.completed)
    && s.audio.active.None? && !NotNewerThan(generation, s.audio.completed)
  }

  lemma PreparedIsVacant(s: System, c: ConfigureCall)
    requires Invariant(s) && s.session.state.Prepared? && Admissible(s, c)
    ensures Vacant(s, c.generation) && s.session.active.None?
  {
  }

  /** The answers of the ports decide how an admitted ConfigureMedia ends. */
  ghost predicate Configures(s: System, c: ConfigureCall, t: System, reply: Reply) {
    if c.negotiation.None? then reply == Err(TransportFailed) && t.trace == s.trace && !t.session.mediaReady
    else if !c.graphOk then reply == Err(GraphFailed) && !t.session.mediaReady
    else if c.negotiation.value.audioSender != c.audioEnabled then
      reply == Err(TransportFailed) && !t.session.mediaReady
    else
      && reply == DONE && SetUp(t, c, s.negotiations)
      && t.session.controller ==
           Some(VideoFeedback.NewController(c.bitrate, c.negotiation.value.minimumBitrate, c.negotiation.value.playout))
  }

  lemma SetUpExactly(s: System, c: ConfigureCall)
    requires c.generation != 0 && c.negotiation.Some? && Vacant(s, c.generation) && !s.session.mediaReady
    requires s.session.audioEnabled == c.audioEnabled && !s.session.audioReceived
    ensures var (t, reply) := SetUpMedia(s, c);
            && Configures(s, c, t, reply) && t.session.state == s.session.state && t.session.active == s.session.active
            && t.session.audioEnabled == s.session.audioEnabled && t.session.videoBitrate == s.session.videoBitrate
            && t.session.completed == s.session.completed
  {
  }

  /**
   * ConfigureMedia is refused without effect, or admits the generation. It then succeeds if and only if the transport
   * and the graph agree and the negotiation has an audio sender exactly where audio is wanted.
   */
  ghost predicate Admits(s: System, c: ConfigureCall, t: System, reply: Reply) {
    if !c.wellFormed || c.generation == 0 then t == s && reply == Err(InvalidRequest)
    else if !s.session.state.Prepared? then t == s && reply == Err(WrongTransition)
    else if !Admissible(s, c) then t == s && reply == Err(InvalidRequest)
    else
      && t.session.state.Configured? && t.session.active == Some(c.generation)
      && t.session.audioEnabled == c.audioEnabled && t.session.videoBitrate == c.bitrate
      && t.session.completed == s.session.completed && Configures(s, c, t, reply)
  }

  lemma ConfigureExactly(s: System, c: ConfigureCall)
    requires Invariant(s)
    ensures var (t, reply) := ConfigureMedia(s, c); Admits(s, c, t, reply)
  {
    if s.session.state.Prepared? && Admissible(s, c) {
      PreparedIsVacant(s, c);
      if c.negotiation.Some? { SetUpExactly(Admitted(s, c), c); }
    }
  }

  // ----- StopMedia and Shutdown -----

  /** The teardowns that have something to tear down succeed. */
  predicate SendersStop(s: System, audioOk: bool, videoOk: bool) {
    && (s.audio.active.Some? && s.audio.active.value.sender.Some? ==> audioOk)
    && (s.video.active.Some? && s.video.active.value.sender.Some? ==> videoOk)
  }

  lemma TearDownExactly(s: System, generation: Generation, c: StopCall)
    requires s.session.audioReceived <==> s.audio.active.Some?
    requires s.session.senderReceived <==> s.video.active.Some?
    requires s.audio.active.Some? ==> s.audio.active.value.generation == generation
    requires s.video.active.Some? ==> s.video.active.value.generation == generation
    ensures var (t, ok) := TearDown(s, generation, c);
            && t.session.state.Prepared? && t.session.completed == Some(generation) && t.session.active.None?
            && t.video.active.None? && t.audio.active.None?
            && ok == SendersStop(s, c.audioOk, c.videoOk)
  {
  }

  /**
   * StopMedia is idempotent, refused without effect, or returns the session to Prepared with empty actors whatever
   * fails. It reports the graph's failure before the senders' and theirs before the transport's.
   */
  ghost predicate Stops(s: System, generation: u64, c: StopCall, t: System, reply: Reply) {
    if generation == 0 then t == s && reply == Err(InvalidRequest)
    else if s.session.state.Prepared? && s.session.completed == Some(generation) then t == s && reply == DONE
    else if s.session.active.None? then t == s && reply == Err(WrongTransition)
    else if s.session.active != Some(generation) then t == s && reply == Err(InvalidRequest)
    else
      && t.session.state.Prepared? && t.session.completed == Some(generation) && t.session.active.None?
      && t.video.active.None? && t.audio.active.None?
      && reply == if s.session.graphReceived && !c.graphOk then Err(GraphFailed)
                  else if !SendersStop(Drift(s, c.meanwhile), c.audioOk, c.videoOk) then
                    Err(SenderFailed(ShutdownFailed))
                  else if s.session.transportActive && !c.transportOk then Err(TransportFailed)
                  else DONE
  }

  lemma StopExactly(s: System, generation: u64, c: StopCall)
    requires Invariant(s)
    ensures var (t, reply) := StopMedia(s, generation, c); Stops(s, generation, c, t, reply)
  {
    if generation != 0 && s.session.active == Some(generation) {
      DriftDrifts(s, c.meanwhile);
      TearDownExactly(Drift(s, c.meanwhile), generation, c);
    }
  }

  /** Shutdown ends the session with empty actors whatever fails. */
  ghost predicate Ends(s: System, c: ShutdownCall, t: System, reply: Reply) {
    && t.session.state.Stopped? && t.session.active.None? && t.video.active.None? && t.audio.active.None?
    && t.session.completed == s.session.completed
    && reply == if !c.graphOk then Err(GraphFailed)
                else if !SendersStop(s, c.audioOk, c.videoOk) then Err(SenderFailed(ShutdownFailed))
                else DONE
  }

  lemma ShutdownExactly(s: System, c: ShutdownCall)
    requires Invariant(s)
    ensures var (t, reply) := ShutdownSession(s, c); Ends(s, c, t, reply)
  {
  }
}
