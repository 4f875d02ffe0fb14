/** What every operation of the media session keeps, across all failure paths and whatever the actors do meanwhile. */
module MediaInvariant {
  import opened Common
  import opened MediaTrace
  import opened VideoSender
  import opened AudioSender
  import opened VideoSenderInvariant
  import opened MediaLedger
  import opened MediaSession
  import VideoFeedback
  import FeedbackRuns
  import Feedback

  // ----- The invariant -----

  predicate Live(state: SessionState) { state.Configured? || state.Streaming? || state.Suspended? }

  predicate NoLater(a: Option<Generation>, b: Option<Generation>) { a.Some? ==> b.Some? && a.value <= b.value }

  /** The session's flags and generations agree with what its actors hold. */
  ghost predicate Aligned(s: System) {
    var x := s.session;
    && (x.active.Some? <==> Live(x.state))
    && (x.senderReceived <==> s.video.active.Some?)
    && (x.audioReceived <==> s.audio.active.Some?)
    && (x.senderReceived ==> x.active == Some(s.video.active.value.generation))
    && (x.audioReceived ==> x.active == Some(s.audio.active.value.generation) && x.audioEnabled)
    && NoLater(s.video.completed, x.completed) && NoLater(s.audio.completed, x.completed)
    && (x.mediaReady <==> x.senderReceived)
    && (x.mediaReady ==>
        x.graphReceived && x.transportActive && (x.audioEnabled ==> x.audioReceived) && x.controller.Some?)
    && (x.state.Streaming? || x.state.Suspended? ==> x.mediaReady)
    && (s.audio.active.Some? ==> (s.audio.active.value.sender.Some? <==> !s.audio.active.value.state.Failed?))
  }

  /** A sender streams only in a streaming session, and follows it into suspension unless it has failed. */
  predicate InPhase(session: SessionState, sender: State) {
    && (session.Configured? ==> !sender.Streaming?)
    && (session.Streaming? ==> sender.Streaming? || sender.Failed?)
    && (session.Suspended? ==> sender.Suspended? || sender.Failed?)
  }

  ghost predicate Phased(s: System) {
    && (s.video.active.Some? ==> InPhase(s.session.state, s.video.active.value.state))
    && (s.audio.active.Some? ==> InPhase(s.session.state, s.audio.active.value.state))
  }

  /** The trace is in order; `held` is a sender negotiated but not yet given to an actor. */
  ghost predicate Ledger(s: System, held: Option<nat>) {
    && Sound(s.video, s.trace)
    && Fresh(s.trace, s.session.active, s.session.completed, s.session.state.Stopped?)
    && Linear(s.trace, s.negotiations, if held.Some? then held else SenderOf(s.video))
    && Asked(s.trace)
  }

  /** The controller has forced no more key frames than it has seen requests, nor seen more than were published. */
  ghost predicate Tracked(s: System) {
    s.session.mediaReady && s.session.controller.Some? ==>
      Since(s.trace, IsForce) <= s.session.controller.value.keys.observed <= s.video.feedback.keyFrameRequests
  }

  /** Holds throughout an operation on a configured generation. */
  ghost predicate Steady(s: System) { Aligned(s) && Ledger(s, None) && Tracked(s) }

  ghost predicate Invariant(s: System) { Steady(s) && Phased(s) }

  lemma InitiallyInvariant()
    ensures Invariant(NEW_SYSTEM)
  {
  }

  // ----- The actors, left to themselves -----

  /** Left to themselves the actors keep their generations; at most they fail. */
  ghost predicate Drifted(s: System, t: System) {
    && t.session == s.session && t.negotiations == s.negotiations
    && t.video.completed == s.video.completed && (t.video.active.Some? <==> s.video.active.Some?)
    && (t.video.active.Some? ==>
          && t.video.active.value.generation == s.video.active.value.generation
          && (t.video.active.value.state == s.video.active.value.state || t.video.active.value.state.Failed?))
    && t.audio.completed == s.audio.completed && (t.audio.active.Some? <==> s.audio.active.Some?)
    && (t.audio.active.Some? ==>
          && t.audio.active.value.generation == s.audio.active.value.generation
          && (t.audio.active.value.state == s.audio.active.value.state || t.audio.active.value.state.Failed?))
  }

  lemma HappenDrifts(s: System, e: ActorEvent)
    ensures Drifted(s, Happen(s, e))
  {
  }

  lemma {:induction false} DriftDrifts(s: System, events: seq<ActorEvent>)
    ensures Drifted(s, Drift(s, events))
    decreases events
  {
    if events == [] {
    } else {
      HappenDrifts(s, events[0]);
      DriftDrifts(Happen(s, events[0]), events[1..]);
    }
  }

  /** Left to themselves the actors force no key frame. */
  lemma {:induction false} DriftUnforced(s: System, events: seq<ActorEvent>)
    ensures Since(Drift(s, events).trace, IsForce) == Since(s.trace, IsForce)
    decreases events
  {
    if events == [] {
    } else {
      if events[0].OfVideo? {
        TakeUnforced(s.video, events[0].video);
        UnforcedAppend(s.trace, Take(s.video, events[0].video).1);
      }
      DriftUnforced(Happen(s, events[0]), events[1..]);
    }
  }

  lemma HappenLedger(s: System, e: ActorEvent)
    requires Steady(s)
    ensures Ledger(Happen(s, e), None) && Tracked(Happen(s, e))
  {
    if e.OfVideo? {
      var (b, effects) := Take(s.video, e.video);
      TakeKeeps(s.video, s.trace, e.video);
      TakeCurrent(s.video, e.video);
      FreshAppend(s.trace, effects, s.session.active, s.session.completed, s.session.state.Stopped?);
      TakeOwns(s.video, e.video, s.trace, s.negotiations);
      TakeUnforced(s.video, e.video);
      UnforcedAppend(s.trace, effects);
    }
  }

  lemma HappenAttached(s: System, e: ActorEvent)
    requires s.audio.active.Some? ==> (s.audio.active.value.sender.Some? <==> !s.audio.active.value.state.Failed?)
    ensures var a := Happen(s, e).audio;
            a.active.Some? ==> (a.active.value.sender.Some? <==> !a.active.value.state.Failed?)
  {
  }

  lemma HappenKeeps(s: System, e: ActorEvent)
    requires Steady(s)
    ensures Steady(Happen(s, e)) && Drifted(s, Happen(s, e))
  {
    HappenDrifts(s, e);
    HappenAttached(s, e);
    HappenLedger(s, e);
  }

  lemma {:induction false} DriftKeeps(s: System, events: seq<ActorEvent>)
    requires Steady(s)
    ensures Steady(Drift(s, events)) && Drifted(s, Drift(s, events))
    decreases events
  {
    if events == [] {
    } else {
      HappenKeeps(s, events[0]);
      DriftKeeps(Happen(s, events[0]), events[1..]);
    }
  }

  lemma DriftInvariant(s: System, events: seq<ActorEvent>)
    requires Invariant(s)
    ensures Invariant(Drift(s, events)) && Drifted(s, Drift(s, events))
  {
    DriftKeeps(s, events);
  }

  lemma MoveVideoKeeps(s: System, generation: Generation, transition: Transition)
    requires Steady(s)
    ensures Steady(MoveVideo(s, generation, transition).0)
  {
    TransitKeeps(s.video, s.trace, generation, transition);
  }

  lemma MoveAudioKeeps(s: System, generation: Generation, transition: Transition)
    requires Steady(s)
    ensures Steady(MoveAudio(s, generation, transition).0)
  {
  }

  // ----- Start, Resume and Suspend -----

  /** Both senders have been set running. */
  ghost predicate Running(s: System) {
    && s.session.mediaReady
    && (s.video.active.Some? ==> s.video.active.value.state.Streaming? || s.video.active.value.state.Failed?)
    && (s.audio.active.Some? ==> s.audio.active.value.state.Streaming? || s.audio.active.value.state.Failed?)
  }

  /** Neither sender is left running. */
  ghost predicate Halted(s: System) {
    && (s.video.active.Some? ==> s.video.active.value.state.Suspended? || s.video.active.value.state.Failed?)
    && (s.audio.active.Some? ==> s.audio.active.value.state.Suspended? || s.audio.active.value.state.Failed?)
  }

  lemma SuspendSendersHalts(s: System, generation: Generation, c: BringUpCall)
    requires Steady(s) && Running(s) && s.session.active == Some(generation)
    ensures var t := SuspendSenders(s, generation, c); Steady(t) && Halted(t) && t.session == s.session
  {
    var a := Drift(s, c.beforeRollback);
    DriftKeeps(s, c.beforeRollback);
    var t := MoveAudio(a, generation, Suspend).0;
    MoveAudioKeeps(a, generation, Suspend);
    var b := Drift(t, c.duringRollback);
    DriftKeeps(t, c.duringRollback);
    MoveVideoKeeps(b, generation, Suspend);
  }

  /** The session and transition that Start and Resume begin with. */
  ghost predicate Begins(s: System, generation: Generation, transition: Transition) {
    && Invariant(s) && s.session.mediaReady && s.session.active == Some(generation)
    && ((transition.Start? && s.session.state.Configured?) || (transition.Resume? && s.session.state.Suspended?))
  }

  lemma DriftBegins(s: System, generation: Generation, transition: Transition, events: seq<ActorEvent>)
    requires Begins(s, generation, transition)
    ensures Begins(Drift(s, events), generation, transition) && Drifted(s, Drift(s, events))
  {
    DriftKeeps(s, events);
  }

  /** A video sender that runs is suspended again, unless it fails first. */
  lemma VideoHalts(s: System, events: seq<ActorEvent>, generation: Generation)
    requires Steady(s) && s.session.mediaReady && s.session.active == Some(generation)
    requires s.video.active.value.state.Streaming? || s.video.active.value.state.Failed?
    ensures var t := MoveVideo(Drift(s, events), generation, Suspend).0;
            && Steady(t) && t.session == s.session && t.audio == Drift(s, events).audio
            && (t.video.active.value.state.Suspended? || t.video.active.value.state.Failed?)
  {
    DriftKeeps(s, events);
    MoveVideoKeeps(Drift(s, events), generation, Suspend);
  }

  /** The video sender has been raised; the audio sender is next. */
  lemma RaiseAudioKeeps(t: System, generation: Generation, transition: Transition, c: BringUpCall)
    requires Steady(t) && t.session.mediaReady && t.session.active == Some(generation)
    requires (transition.Start? && t.session.state.Configured?) || (transition.Resume? && t.session.state.Suspended?)
    requires t.video.active.value.state.Streaming? || t.video.active.value.state.Failed?
    requires t.audio.active.Some? ==> InPhase(t.session.state, t.audio.active.value.state)
    ensures var (u, moved) := MoveAudio(Drift(t, c.beforeAudioTransition), generation, transition);
            if moved.Ok? then Steady(u) && u.session == t.session && Running(u)
            else
              var v := MoveVideo(Drift(u, c.duringRollback), generation, Suspend).0;
              Steady(v) && v.session == t.session && Phased(v)
  {
    var b := Drift(t, c.beforeAudioTransition);
    DriftKeeps(t, c.beforeAudioTransition);
    var (u, moved) := MoveAudio(b, generation, transition);
    MoveAudioKeeps(b, generation, transition);
    if moved.Err? {
      DriftDrifts(u, c.duringRollback);
      VideoHalts(u, c.duringRollback, generation);
    }
  }

  lemma RaiseSendersKeeps(s: System, generation: Generation, transition: Transition, c: BringUpCall)
    requires Begins(s, generation, transition)
    ensures var (u, reply) := RaiseSenders(s, generation, transition, c);
            Steady(u) && u.session == s.session && if reply.Ok? then Running(u) else Phased(u)
  {
    var a := Drift(s, c.beforeTransition);
    DriftBegins(s, generation, transition, c.beforeTransition);
    var (t, moved) := MoveVideo(a, generation, transition);
    MoveVideoKeeps(a, generation, transition);
    if moved.Ok? { RaiseAudioKeeps(t, generation, transition, c); }
  }

  lemma DriftRuns(s: System, events: seq<ActorEvent>)
    requires Steady(s) && Running(s)
    ensures Steady(Drift(s, events)) && Running(Drift(s, events)) && Drift(s, events).session == s.session
  {
    DriftKeeps(s, events);
  }

  lemma DeliveryRuns(s: System, generation: Generation, c: BringUpCall, video: Statistics,
      audio: Option<AudioStatistics>)
    requires Steady(s) && Running(s)
    ensures var (t, _) := ConfirmDelivery(s, generation, c, video, audio);
              Steady(t) && Running(t) && t.session == s.session
  {
    var t := Drift(s, c.frameWait);
    DriftRuns(s, c.frameWait);
    DriftRuns(t, c.packetWait);
  }

  lemma ReceiptRuns(s: System, generation: Generation, c: BringUpCall, video: Statistics,
      audio: Option<AudioStatistics>)
    requires Steady(s) && Running(s)
    ensures var (t, _) := ConfirmReceipt(s, generation, c, video, audio);
              Steady(t) && Running(t) && t.session == s.session
  {
    var t := Drift(s, c.ackWait);
    DriftRuns(s, c.ackWait);
    DriftRuns(t, c.audioAckWait);
  }

  lemma ConfirmRuns(s: System, generation: Generation, c: BringUpCall, video: Statistics,
      audio: Option<AudioStatistics>)
    requires Steady(s) && Running(s)
    ensures var (t, _) := Confirm(s, generation, c, video, audio); Steady(t) && Running(t) && t.session == s.session
  {
    DeliveryRuns(s, generation, c, video, audio);
    ReceiptRuns(ConfirmDelivery(s, generation, c, video, audio).0, generation, c, video, audio);
  }

  lemma RunGraphKeeps(s: System, generation: Generation, c: BringUpCall, video: Statistics,
      audio: Option<AudioStatistics>)
    requires Steady(s) && Running(s) && s.session.active == Some(generation) && !s.session.state.Streaming?
    ensures Invariant(RunGraph(s, generation, c, video, audio).0)
  {
    var t := Drift(s, c.beforeGraph);
    DriftRuns(s, c.beforeGraph);
    if !c.graphOk {
      SuspendSendersHalts(t, generation, c);
    } else {
      var (u, confirmed) := Confirm(t, generation, c, video, audio);
      ConfirmRuns(t, generation, c, video, audio);
      if !confirmed { SuspendSendersHalts(u, generation, c); }
    }
  }

  lemma BringUpKeeps(s: System, generation: Generation, transition: Transition, c: BringUpCall)
    requires Begins(s, generation, transition)
    ensures Invariant(BringUp(s, generation, transition, c).0)
  {
    var video := StatisticsOf(s.video, generation);
    if video.Ok? {
      var t := Drift(s, c.beforeAudioStatistics);
      DriftBegins(s, generation, transition, c.beforeAudioStatistics);
      var audio := AudioStatisticsOf(t.audio, generation);
      if !s.session.audioEnabled || audio.Ok? {
        var (u, reply) := RaiseSenders(t, generation, transition, c);
        RaiseSendersKeeps(t, generation, transition, c);
        if reply.Ok? {
          RunGraphKeeps(u, generation, c, video.value, if s.session.audioEnabled then Some(audio.value) else None);
        }
      }
    }
  }

  /** An audio sender that was suspended is resumed, unless it has failed. */
  lemma AudioResumes(s: System, events: seq<ActorEvent>, generation: Generation)
    requires Steady(s) && s.session.mediaReady && s.session.active == Some(generation)
    requires s.audio.active.Some? ==> s.audio.active.value.state.Suspended? || s.audio.active.value.state.Failed?
    ensures var t := MoveAudio(Drift(s, events), generation, Resume).0;
            && Steady(t) && t.session == s.session && t.video == Drift(s, events).video
            && (t.audio.active.Some? ==> t.audio.active.value.state.Streaming? || t.audio.active.value.state.Failed?)
  {
    DriftKeeps(s, events);
    MoveAudioKeeps(Drift(s, events), generation, Resume);
  }

  /** The audio sender has been suspended; the video sender is next. */
  lemma SuspendVideoKeeps(t: System, generation: Generation, c: SuspendCall)
    requires Steady(t) && t.session.state.Streaming? && t.session.active == Some(generation)
    requires t.video.active.value.state.Streaming? || t.video.active.value.state.Failed?
    requires t.audio.active.Some? ==> t.audio.active.value.state.Suspended?
    ensures var (u, moved) := MoveVideo(Drift(t, c.beforeVideo), generation, Suspend);
            if moved.Err? then Invariant(MoveAudio(Drift(u, c.beforeRollback), generation, Resume).0)
            else Invariant(u.(session := u.session.(state := SessionState.Suspended)))
  {
    var b := Drift(t, c.beforeVideo);
    DriftKeeps(t, c.beforeVideo);
    var (u, moved) := MoveVideo(b, generation, Suspend);
    MoveVideoKeeps(b, generation, Suspend);
    if moved.Err? {
      DriftDrifts(u, c.beforeRollback);
      AudioResumes(u, c.beforeRollback, generation);
    }
  }

  lemma SuspendMediaKeeps(s: System, c: SuspendCall)
    requires Invariant(s)
    ensures Invariant(SuspendMedia(s, c).0)
  {
    if s.session.state.Streaming? && c.graphOk {
      var generation := s.session.active.value;
      var a := Drift(s, c.beforeAudio);
      DriftKeeps(s, c.beforeAudio);
      var (t, audioMoved) := MoveAudio(a, generation, Suspend);
      MoveAudioKeeps(a, generation, Suspend);
      if audioMoved.Ok? { SuspendVideoKeeps(t, generation, c); }
    }
  }

  // ----- StopMedia and Shutdown -----

  lemma StopVideoSenderKeeps(s: System, generation: Generation, c: StopCall)
    requires Ledger(s, None) && (s.session.senderReceived <==> s.video.active.Some?)
    requires s.video.active.Some? ==> s.video.active.value.generation == generation
    ensures var t := StopVideoSender(s, generation, c).0;
            && Ledger(t, None) && t.video.active.None? && t.session == s.session && t.audio == s.audio
            && (t.video.completed == s.video.completed || t.video.completed == Some(generation))
  {
    if s.video.active.Some? {
      var effects := Release(SenderOf(s.video));
      StopKeeps(s.video, s.trace, generation, c.videoOk);
      FreshAppend(s.trace, effects, s.session.active, s.session.completed, s.session.state.Stopped?);
      LinearRelease(s.trace, s.negotiations, SenderOf(s.video));
      UnforcedAppend(s.trace, effects);
    }
  }

  lemma ForgottenLedger(s: System, generation: Generation, t: System)
    requires Ledger(s, None) && s.video.active.None? && s.session.active == Some(generation)
    requires !s.session.state.Stopped?
    requires t.video == s.video && t.trace == s.trace + [Effect.Stopped(generation)] && t.negotiations == s.negotiations
    requires t.session.active.None? && t.session.completed == Some(generation) && !t.session.state.Stopped?
    ensures Ledger(t, None)
  {
    var effects := [Effect.Stopped(generation)];
    FreshStopped(s.trace, generation, s.session.completed);
    NeutralKeeps(s.video, s.trace, effects[0]);
    LinearQuiet(s.trace, effects, s.negotiations, None);
    UnforcedAppend(s.trace, effects);
  }

  lemma ForgottenKeeps(s: System, generation: Generation)
    requires Ledger(s, None) && s.video.active.None? && s.audio.active.None?
    requires s.session.active == Some(generation) && !s.session.state.Stopped?
    requires NoLater(s.video.completed, Some(generation)) && NoLater(s.audio.completed, Some(generation))
    ensures Invariant(s.(session := Reset(Some(generation), Prepared), trace := s.trace + [Effect.Stopped(generation)]))
  {
    ForgottenLedger(s, generation,
      s.(session := Reset(Some(generation), Prepared), trace := s.trace + [Effect.Stopped(generation)]));
  }

  /** Completed generations lie below the one in force. */
  lemma CompletedBelow(s: System, generation: Generation)
    requires Steady(s) && s.session.active == Some(generation) && !s.session.state.Stopped?
    ensures NoLater(s.video.completed, Some(generation)) && NoLater(s.audio.completed, Some(generation))
  {
  }

  lemma TearDownKeeps(s: System, generation: Generation, c: StopCall)
    requires Steady(s) && s.session.active == Some(generation)
    ensures Invariant(TearDown(s, generation, c).0)
  {
    CompletedBelow(s, generation);
    var t := StopAudioSender(s, generation, c).0;
    assert t.audio.active.None? && NoLater(t.audio.completed, Some(generation));
    StopVideoSenderKeeps(t, generation, c);
    ForgottenKeeps(StopVideoSender(t, generation, c).0, generation);
  }

  lemma StopMediaKeeps(s: System, generation: u64, c: StopCall)
    requires Invariant(s)
    ensures Invariant(StopMedia(s, generation, c).0)
  {
    if generation != 0 && s.session.active == Some(generation) {
      DriftKeeps(s, c.meanwhile);
      TearDownKeeps(Drift(s, c.meanwhile), generation, c);
    }
  }

  lemma ShutdownSessionKeeps(s: System, c: ShutdownCall)
    requires Invariant(s)
    ensures Invariant(ShutdownSession(s, c).0)
  {
    assert s.trace + [] == s.trace;
    var effects := Release(SenderOf(s.video));
    ShutdownKeeps(s.video, s.trace, c.videoOk);
    FreshAppend(s.trace, effects, s.session.active, s.session.completed, s.session.state.Stopped?);
    LinearRelease(s.trace, s.negotiations, SenderOf(s.video));
    UnforcedAppend(s.trace, effects);
  }

  // ----- ConfigureMedia -----

  /** A generation that has a negotiated sender in hand and no video sender in its actor. */
  ghost predicate Pending(s: System, generation: Generation, sender: nat) {
    && Aligned(s) && Ledger(s, Some(sender)) && Phased(s)
    && s.session.state.Configured? && s.session.active == Some(generation) && !s.session.mediaReady
    && s.session.transportActive && s.session.graphReceived
  }

  lemma AdmittedKeeps(s: System, c: ConfigureCall)
    requires Invariant(s) && Refusal(s, c).None?
    ensures Invariant(Admitted(s, c))
  {
    FreshAdmitted(s.trace, c.generation, s.session.completed);
  }

  lemma NegotiatePends(s: System, generation: Generation, audio: bool)
    requires Invariant(s) && s.session.state.Configured? && s.session.active == Some(generation)
               && !s.session.mediaReady
    ensures Pending(Negotiate(s, audio), generation, s.negotiations)
  {
    var e := Negotiated(s.negotiations);
    NeutralKeeps(s.video, s.trace, e);
    FreshAppend(s.trace, [e], s.session.active, s.session.completed, false);
    LinearNegotiated(s.trace, s.negotiations);
    UnforcedAppend(s.trace, [e]);
  }

  lemma DiscardKeeps(s: System, generation: Generation, sender: nat)
    requires Pending(s, generation, sender)
    ensures Invariant(Discard(s, sender))
  {
    var e := ShutDown(sender);
    NeutralKeeps(s.video, s.trace, e);
    FreshAppend(s.trace, [e], s.session.active, s.session.completed, false);
    LinearShut(s.trace, s.negotiations, sender);
    UnforcedAppend(s.trace, [e]);
  }

  lemma AttachAudioKeeps(s: System, c: ConfigureCall, sender: nat)
    requires c.generation > 0 && c.negotiation.Some? && Pending(s, c.generation, sender)
    requires s.session.audioEnabled == c.audioEnabled && !s.session.audioReceived
    ensures var (t, reply) := AttachAudio(s, c, sender);
            if reply.Err? then Invariant(t) && reply.error == TransportFailed
            else Pending(t, c.generation, sender) && t.session.controller == s.session.controller
                 && (t.session.audioEnabled ==> t.session.audioReceived)
  {
    if c.audioEnabled != c.negotiation.value.audioSender {
      DiscardKeeps(s, c.generation, sender);
      DiscardKeeps(Record(s, [AudioShut(sender)]), c.generation, sender);
    }
  }

  lemma AttachVideoKeeps(s: System, generation: Generation, sender: nat)
    requires Pending(s, generation, sender) && (s.session.audioEnabled ==> s.session.audioReceived)
    requires s.session.controller.Some? && s.session.controller.value.keys.observed == 0
    ensures AttachVideo(s, generation, sender).1 == DONE && Invariant(AttachVideo(s, generation, sender).0)
  {
    var e := Effect.Configured(generation, sender);
    ConfigureKeeps(s.video, s.trace, generation, sender, false);
    FreshAppend(s.trace, [e], s.session.active, s.session.completed, false);
    LinearQuiet(s.trace, [e], s.negotiations, Some(sender));
    SinceAppend(s.trace, e, IsForce);
    SinceAppend(s.trace, e, IsRequest);
  }

  /**
   * ConfigureMedia keeps the invariant on every path, and no actor ever rejects a generation the session has
   * admitted.
   */
  lemma ConfigureMediaKeeps(s: System, c: ConfigureCall)
    requires Invariant(s)
    ensures var (t, reply) := ConfigureMedia(s, c); Invariant(t) && !(reply.Err? && reply.error.SenderFailed?)
  {
    if Refusal(s, c).None? {
      AdmittedKeeps(s, c);
      if c.negotiation.Some? {
        var sender, n := s.negotiations, c.negotiation.value;
        NegotiatePends(Admitted(s, c), c.generation, n.audioSender);
        var t := Record(Negotiate(Admitted(s, c), n.audioSender), [GraphAnswered(sender, c.graphOk)]);
        assert Pending(t, c.generation, sender);
        if !c.graphOk {
          DiscardKeeps(t, c.generation, sender);
        } else {
          var controller := VideoFeedback.NewController(c.bitrate, n.minimumBitrate, n.playout);
          var v := t.(session := t.session.(controller := Some(controller)));
          AttachAudioKeeps(v, c, sender);
          var (u, reply) := AttachAudio(v, c, sender);
          if reply.Ok? { AttachVideoKeeps(u, c.generation, sender); }
        }
      }
    }
  }

  // ----- Feedback -----

  lemma ForceStep(c: Controller, f: SenderFeedback, now: Instant)
    ensures var (d, actions) := Observe(c, f, now);
            && c.keys.observed <= d.keys.observed <= Max(c.keys.observed, f.keyFrameRequests)
            && (VideoFeedback.Forces(actions) ==> d.keys.observed > c.keys.observed)
            && forall i :: 0 < i < |actions| ==> !actions[i].ForceKeyFrame?
  {
    FeedbackRuns.ForceObserved(c, FeedbackRuns.Input(SnapshotOf(f), now));
  }

  /** A request leaves the actors alone, and of the session it changes no more than the bitrate. */
  lemma AskShape(s: System, generation: Generation, action: Feedback.Action, c: FeedbackCall)
    ensures var t := Ask(s, generation, action, c).0;
            && t.video == s.video && t.audio == s.audio && t.negotiations == s.negotiations
            && t.session == s.session.(videoBitrate := t.session.videoBitrate)
            && (action.ForceKeyFrame? ==> t.trace == s.trace + [Forced(generation)])
            && (!action.ForceKeyFrame? ==> t.trace == s.trace || t.trace == s.trace + [Adjusted(generation, action)])
  {
  }

  /** What feedback leads to: actors that have drifted, and a session with perhaps another bitrate. */
  ghost predicate Reacted(s: System, t: System) {
    Drifted(s, t.(session := s.session)) && t.session == s.session.(videoBitrate := t.session.videoBitrate)
  }

  lemma CarryOutShape(s: System, generation: Generation, action: Feedback.Action, c: FeedbackCall)
    ensures Reacted(s, CarryOut(s, generation, action, c).0)
  {
    DriftDrifts(s, c.Before(action));
    AskShape(Drift(s, c.Before(action)), generation, action, c);
  }

  lemma {:induction false} CarryOutAllShape(
    s: System, generation: Generation, actions: seq<Feedback.Action>, c: FeedbackCall)
    ensures Reacted(s, CarryOutAll(s, generation, actions, c).0)
    decreases actions
  {
    if actions == [] {
    } else {
      CarryOutShape(s, generation, actions[0], c);
      CarryOutAllShape(CarryOut(s, generation, actions[0], c).0, generation, actions[1..], c);
    }
  }

  lemma AdjustedKeeps(s: System, e: Effect)
    requires Invariant(s) && e.Adjusted?
    ensures Invariant(s.(trace := s.trace + [e]))
  {
    NeutralKeeps(s.video, s.trace, e);
    FreshAppend(s.trace, [e], s.session.active, s.session.completed, s.session.state.Stopped?);
    LinearQuiet(s.trace, [e], s.negotiations, SenderOf(s.video));
    UnforcedAppend(s.trace, [e]);
  }

  lemma AskKeeps(s: System, generation: Generation, action: Feedback.Action, c: FeedbackCall)
    requires Invariant(s) && s.session.active == Some(generation) && !action.ForceKeyFrame?
    ensures Invariant(Ask(s, generation, action, c).0)
  {
    AskShape(s, generation, action, c);
    AdjustedKeeps(s, Adjusted(generation, action));
  }

  lemma AdjustKeeps(s: System, generation: Generation, action: Feedback.Action, c: FeedbackCall)
    requires Invariant(s) && s.session.active == Some(generation) && !action.ForceKeyFrame?
    ensures Invariant(CarryOut(s, generation, action, c).0)
  {
    DriftInvariant(s, c.Before(action));
    AskKeeps(Drift(s, c.Before(action)), generation, action, c);
  }

  lemma {:induction false} AdjustAllKeeps(
    s: System, generation: Generation, actions: seq<Feedback.Action>, c: FeedbackCall)
    requires Invariant(s) && s.session.active == Some(generation)
    requires forall i :: 0 <= i < |actions| ==> !actions[i].ForceKeyFrame?
    ensures Invariant(CarryOutAll(s, generation, actions, c).0)
    decreases actions
  {
    if actions == [] {
    } else {
      AdjustKeeps(s, generation, actions[0], c);
      CarryOutShape(s, generation, actions[0], c);
      AdjustAllKeeps(CarryOut(s, generation, actions[0], c).0, generation, actions[1..], c);
    }
  }

  lemma AskForceKeeps(s: System, generation: Generation, c: FeedbackCall)
    requires Invariant(s) && s.session.active == Some(generation) && s.session.mediaReady
    requires Since(s.trace, IsForce) < s.session.controller.value.keys.observed
    ensures Invariant(Ask(s, generation, Feedback.ForceKeyFrame, c).0)
  {
    var e := Forced(generation);
    NeutralKeeps(s.video, s.trace, e);
    FreshAppend(s.trace, [e], s.session.active, s.session.completed, false);
    LinearQuiet(s.trace, [e], s.negotiations, SenderOf(s.video));
    SinceAppend(s.trace, e, IsForce);
    SinceAppend(s.trace, e, IsRequest);
  }

  lemma ForceKeeps(s: System, generation: Generation, c: FeedbackCall)
    requires Invariant(s) && s.session.active == Some(generation) && s.session.mediaReady
    requires Since(s.trace, IsForce) < s.session.controller.value.keys.observed
    ensures Invariant(CarryOut(s, generation, Feedback.ForceKeyFrame, c).0)
  {
    DriftInvariant(s, c.beforeKeyFrame);
    DriftUnforced(s, c.beforeKeyFrame);
    AskForceKeeps(Drift(s, c.beforeKeyFrame), generation, c);
  }

  lemma HandleFeedbackKeeps(s: System, c: FeedbackCall)
    requires Invariant(s)
    ensures Invariant(HandleFeedback(s, c).0)
  {
    if Heard(s) && !s.video.feedback.terminal {
      var generation := s.session.active.value;
      var (controller, actions) := Observe(s.session.controller.value, s.video.feedback, c.now);
      ForceStep(s.session.controller.value, s.video.feedback, c.now);
      var t := s.(session := s.session.(controller := Some(controller)));
      assert Invariant(t);
      if VideoFeedback.Forces(actions) {
        ForceKeeps(t, generation, c);
        CarryOutShape(t, generation, actions[0], c);
        AdjustAllKeeps(CarryOut(t, generation, actions[0], c).0, generation, actions[1..], c);
      } else {
        AdjustAllKeeps(t, generation, actions, c);
      }
    }
  }

  // ----- All operations -----

  lemma ApplyKeeps(s: System, op: Operation)
    requires Invariant(s)
    ensures Invariant(Apply(s, op))
  {
    match op {
      case Prepare(_) =>
      case ConfigureOp(c) => ConfigureMediaKeeps(s, c);
      case StartOp(generation, c) =>
        if Guard(s, generation, SessionState.Configured).None?
            && s.session.mediaReady { BringUpKeeps(s, generation, Start, c); }
      case ResumeOp(generation, c) =>
        if Guard(s, generation, SessionState.Suspended).None? { BringUpKeeps(s, generation, Resume, c); }
      case SuspendOp(c) => SuspendMediaKeeps(s, c);
      case StopOp(generation, c) => StopMediaKeeps(s, generation, c);
      case FeedbackOp(c) => HandleFeedbackKeeps(s, c);
      case ShutdownOp(c) => ShutdownSessionKeeps(s, c);
      case ActorOp(e) => HappenKeeps(s, e);
    }
  }
}
