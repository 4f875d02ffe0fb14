/** The media session as the program runs it: fields overwritten step by step around requests to its actors. */
module MediaMachine {
  import opened Common
  import opened MediaTrace
  import opened VideoSender
  import opened AudioSender
  import opened MediaSession
  import opened MediaInvariant
  import opened AudioOwnership
  import Lifecycle
  import FeedbackDelivery
  import Feedback
  import VideoFeedback

  class ChromiacastMediaSession {
    var state: SessionState
    var activeGeneration: Option<Generation>
    var completedGeneration: Option<Generation>
    var graphReceivedGeneration: bool
    var senderReceivedGeneration: bool
    var audioSenderReceivedGeneration: bool
    var transportActive: bool
    var audioEnabled: bool
    var mediaReady: bool
    var videoBitrate: u64
    var feedbackController: Option<VideoFeedback.VideoFeedbackController>
    var negotiations: nat
    const sender: VideoSenderActor
    const audioSender: AudioSenderActor

    ghost function Repr(): set<object>
      reads this
    {
      {this, sender, audioSender, sender.world} + if feedbackController.Some? then feedbackController.value.Objects()
          else {}
    }

    /** Holds even in the middle of an operation. */
    ghost predicate WellFormed()
      reads Repr(), this
    {
      audioSender.Valid() && (feedbackController.Some? ==> feedbackController.value.View().Bounded())
    }

    /** Holds between operations: session, actors and trace satisfy the invariants of all runs. */
    ghost predicate Valid()
      reads Repr(), this
    {
      WellFormed() && Invariant(View()) && AudioOwned(View())
    }

    ghost function View(): System
      requires WellFormed()
      reads Repr(), this
    {
      System(Session(state, activeGeneration, completedGeneration, graphReceivedGeneration, senderReceivedGeneration,
                     audioSenderReceivedGeneration, transportActive, audioEnabled, mediaReady, videoBitrate,
                     if feedbackController.Some? then Some(feedbackController.value.View()) else None),
             sender.View(), audioSender.View(), negotiations, sender.world.trace)
    }

    constructor ()
      ensures Valid() && fresh(Repr()) && View() == NEW_SYSTEM
    {
      var world := new World();
      sender := new VideoSenderActor(world);
      audioSender := new AudioSenderActor();
      state, activeGeneration, completedGeneration := Created, None, None;
      graphReceivedGeneration, senderReceivedGeneration, audioSenderReceivedGeneration := false, false, false;
      transportActive, audioEnabled, mediaReady, videoBitrate := false, false, false, 0;
      feedbackController, negotiations := None, 0;
      InitiallyInvariant();
    }

    /** The actors take up what comes their way. */
    method Elapse(events: seq<ActorEvent>)
      requires WellFormed()
      modifies sender, audioSender, sender.world
      ensures WellFormed() && View() == Drift(old(View()), events)
    {
      var i := 0;
      assert events[0..] == events;
      while i < |events|
        invariant 0 <= i <= |events| && WellFormed()
        invariant Drift(View(), events[i..]) == Drift(old(View()), events)
      {
        ghost var before := View();
        assert events[i..][0] == events[i] && events[i..][1..] == events[i + 1..];
        match events[i] {
          case OfVideo(e) => sender.Turn(e);
          case OfAudio(e) => audioSender.Turn(e);
        }
        assert View() == Happen(before, events[i]);
        i := i + 1;
      }
    }

    method Refuse(c: ConfigureCall) returns (r: Option<SessionError>)
      requires WellFormed()
      ensures r == Refusal(View(), c)
    {
      if !c.wellFormed || c.generation == 0 { return Some(InvalidRequest); }
      if state != Prepared { return Some(WrongTransition); }
      if completedGeneration.Some? && c.generation <= completedGeneration.value { return Some(InvalidRequest); }
      if !c.supported { return Some(InvalidRequest); }
      return None;
    }

    method ResetFlags(audio: bool, bitrate: u64)
      modifies `graphReceivedGeneration, `senderReceivedGeneration, `audioSenderReceivedGeneration
      modifies `transportActive, `audioEnabled, `mediaReady, `videoBitrate
      ensures !graphReceivedGeneration && !senderReceivedGeneration && !audioSenderReceivedGeneration
      ensures !transportActive && !mediaReady && audioEnabled == audio && videoBitrate == bitrate
    {
      graphReceivedGeneration, senderReceivedGeneration, audioSenderReceivedGeneration := false, false, false;
      transportActive, audioEnabled, mediaReady, videoBitrate := false, audio, false, bitrate;
    }

    method Admit(c: ConfigureCall)
      requires WellFormed() && c.generation > 0
      modifies this
      ensures WellFormed() && feedbackController == old(feedbackController) && View() == Admitted(old(View()), c)
    {
      activeGeneration := Some(c.generation);
      ResetFlags(c.audioEnabled, c.bitrate);
      state := SessionState.Configured;
    }

    method TakeAudioSender(c: ConfigureCall, video: nat) returns (reply: Reply)
      requires WellFormed() && c.generation > 0 && c.negotiation.Some?
      modifies `audioSenderReceivedGeneration, audioSender, sender.world
      ensures WellFormed() && (View(), reply) == AttachAudio(old(View()), c, video)
    {
      match (c.audioEnabled, c.negotiation.value.audioSender) {
        case (true, true) =>
          var configured := audioSender.ConfigureActive(c.generation, video);
          if configured.Err? {
            sender.world.trace := sender.world.trace + [ShutDown(video)];
            return Err(SenderFailed(configured.error));
          }
          audioSenderReceivedGeneration := true;
        case (true, false) =>
          sender.world.trace := sender.world.trace + [ShutDown(video)];
          return Err(TransportFailed);
        case (false, true) =>
          audioSender.ledger := audioSender.ledger + [AudioShut(video)];
          sender.world.trace := sender.world.trace + [ShutDown(video)];
          return Err(TransportFailed);
        case (false, false) =>
      }
      return DONE;
    }

    method TakeVideoSender(generation: Generation, video: nat) returns (reply: Reply)
      requires WellFormed()
      modifies `senderReceivedGeneration, `mediaReady, sender, sender.world
      ensures WellFormed() && (View(), reply) == AttachVideo(old(View()), generation, video)
    {
      var configured := sender.ConfigureActive(generation, video, false);
      if configured.Err? { return Err(SenderFailed(configured.error)); }
      senderReceivedGeneration, mediaReady := true, true;
      return DONE;
    }

    /** The negotiated senders are the session's own until an actor takes them. */
    method AcceptNegotiation(audio: bool) returns (video: nat)
      requires WellFormed()
      modifies `transportActive, `graphReceivedGeneration, `negotiations, audioSender, sender.world
      ensures WellFormed() && video == old(negotiations) && View() == Negotiate(old(View()), audio)
    {
      video := negotiations;
      transportActive, graphReceivedGeneration, negotiations := true, true, negotiations + 1;
      sender.world.trace := sender.world.trace + [Negotiated(video)];
      audioSender.ledger := audioSender.ledger + if audio then [AudioOffered(video)] else [];
    }

    method NoteAnswer(video: nat, accepted: bool)
      requires WellFormed()
      modifies audioSender
      ensures WellFormed() && View() == Record(old(View()), [GraphAnswered(video, accepted)])
    {
      audioSender.ledger := audioSender.ledger + [GraphAnswered(video, accepted)];
    }

    method DropVideo(video: nat)
      requires WellFormed()
      modifies sender.world
      ensures WellFormed() && View() == Discard(old(View()), video)
    {
      sender.world.trace := sender.world.trace + [ShutDown(video)];
    }

    method CreateController(bitrate: NonZeroU64, n: Negotiation)
      requires WellFormed()
      modifies `feedbackController
      ensures WellFormed() && fresh(Repr() - old(Repr()))
      ensures var s := old(View());
              View() == s.(session :=
                  s.session.(controller := Some(VideoFeedback.NewController(bitrate, n.minimumBitrate, n.playout))))
    {
      var controller := new VideoFeedback.VideoFeedbackController(bitrate, n.minimumBitrate, n.playout);
      feedbackController := Some(controller);
    }

    method TakeSenders(c: ConfigureCall, video: nat) returns (reply: Reply)
      requires WellFormed() && c.generation > 0 && c.negotiation.Some?
      modifies this, sender, audioSender, sender.world
      ensures WellFormed() && fresh(Repr() - old(Repr())) && (View(), reply) == AttachSenders(old(View()), c, video)
    {
      CreateController(c.bitrate, c.negotiation.value);
      reply := TakeAudioSender(c, video);
      if reply.Ok? { reply := TakeVideoSender(c.generation, video); }
    }

    method SetUp(c: ConfigureCall) returns (reply: Reply)
      requires WellFormed() && c.generation > 0 && c.negotiation.Some?
      modifies this, sender, audioSender, sender.world
      ensures WellFormed() && fresh(Repr() - old(Repr())) && (View(), reply) == SetUpMedia(old(View()), c)
    {
      var video := AcceptNegotiation(c.negotiation.value.audioSender);
      NoteAnswer(video, c.graphOk);
      if !c.graphOk {
        DropVideo(video);
        return Err(GraphFailed);
      }
      reply := TakeSenders(c, video);
    }

    method ConfigureGeneration(c: ConfigureCall) returns (reply: Reply)
      requires WellFormed()
      modifies this, sender, audioSender, sender.world
      ensures WellFormed() && fresh(Repr() - old(Repr())) && (View(), reply) == ConfigureMedia(old(View()), c)
    {
      var refusal := Refuse(c);
      if refusal.Some? { return Err(refusal.value); }
      Admit(c);
      if c.negotiation.None? { return Err(TransportFailed); }
      reply := SetUp(c);
    }

    method MoveSender(generation: Generation, transition: Transition) returns (r: Result<Common.Unit, Error>)
      requires WellFormed()
      modifies sender
      ensures WellFormed() && (View(), r) == MoveVideo(old(View()), generation, transition)
    {
      r := sender.TransitionActive(generation, transition);
    }

    method MoveAudioSender(generation: Generation, transition: Transition) returns (r: Result<Common.Unit, Error>)
      requires WellFormed()
      modifies audioSender
      ensures WellFormed() && (View(), r) == MoveAudio(old(View()), generation, transition)
    {
      r := Ok(Common.Unit);
      if audioEnabled { r := audioSender.TransitionActive(generation, transition); }
    }

    method SuspendSendersBestEffort(generation: Generation, c: BringUpCall)
      requires WellFormed()
      modifies sender, audioSender, sender.world
      ensures WellFormed() && View() == SuspendSenders(old(View()), generation, c)
    {
      Elapse(c.beforeRollback);
      var _ := MoveAudioSender(generation, Transition.Suspend);
      Elapse(c.duringRollback);
      var _ := MoveSender(generation, Transition.Suspend);
    }

    method WaitForDelivery(generation: Generation, c: BringUpCall, video: Statistics, audio: Option<AudioStatistics>)
        returns (ok: bool)
      requires WellFormed()
      modifies sender, audioSender, sender.world
      ensures WellFormed() && (View(), ok) == ConfirmDelivery(old(View()), generation, c, video, audio)
    {
      Elapse(c.frameWait);
      var statistics := StatisticsOf(Actor(sender.active, sender.completedGeneration, sender.feedback), generation);
      if statistics.Err? || statistics.value.frames <= video.frames { return false; }
      if audio.None? { return true; }
      Elapse(c.packetWait);
      var packets := AudioStatisticsOf(AudioActor(audioSender.active, audioSender.completedGeneration, []), generation);
      return packets.Ok? && packets.value.packets > audio.value.packets;
    }

    method WaitForReceipt(generation: Generation, c: BringUpCall, video: Statistics, audio: Option<AudioStatistics>)
        returns (ok: bool)
      requires WellFormed()
      modifies sender, audioSender, sender.world
      ensures WellFormed() && (View(), ok) == ConfirmReceipt(old(View()), generation, c, video, audio)
    {
      Elapse(c.ackWait);
      var statistics := StatisticsOf(Actor(sender.active, sender.completedGeneration, sender.feedback), generation);
      if statistics.Err? || statistics.value.acknowledgedFrames <= video.acknowledgedFrames { return false; }
      if audio.None? { return true; }
      Elapse(c.audioAckWait);
      statistics := StatisticsOf(Actor(sender.active, sender.completedGeneration, sender.feedback), generation);
      return statistics.Ok? && statistics.value.acknowledgedAudioPackets > video.acknowledgedAudioPackets;
    }

    method WaitForMediaConfirmation(generation: Generation, c: BringUpCall, video: Statistics,
        audio: Option<AudioStatistics>) returns (ok: bool)
      requires WellFormed()
      modifies sender, audioSender, sender.world
      ensures WellFormed() && (View(), ok) == Confirm(old(View()), generation, c, video, audio)
    {
      ok := WaitForDelivery(generation, c, video, audio);
      if ok { ok := WaitForReceipt(generation, c, video, audio); }
    }

    method Raise(generation: Generation, transition: Transition, c: BringUpCall) returns (reply: Reply)
      requires WellFormed()
      modifies sender, audioSender, sender.world
      ensures WellFormed() && (View(), reply) == RaiseSenders(old(View()), generation, transition, c)
    {
      Elapse(c.beforeTransition);
      var moved := MoveSender(generation, transition);
      if moved.Err? { return Err(SenderFailed(moved.error)); }
      Elapse(c.beforeAudioTransition);
      moved := MoveAudioSender(generation, transition);
      if moved.Err? {
        Elapse(c.duringRollback);
        var _ := MoveSender(generation, Transition.Suspend);
        return Err(SenderFailed(moved.error));
      }
      return DONE;
    }

    method StartGraph(generation: Generation, c: BringUpCall, video: Statistics, audio: Option<AudioStatistics>)
        returns (reply: Reply)
      requires WellFormed()
      modifies `state, sender, audioSender, sender.world
      ensures WellFormed() && (View(), reply) == RunGraph(old(View()), generation, c, video, audio)
    {
      Elapse(c.beforeGraph);
      if !c.graphOk {
        SuspendSendersBestEffort(generation, c);
        return Err(GraphFailed);
      }
      var confirmed := WaitForMediaConfirmation(generation, c, video, audio);
      if !confirmed {
        SuspendSendersBestEffort(generation, c);
        return Err(Unconfirmed);
      }
      state := SessionState.Streaming;
      return DONE;
    }

    method BringUpMedia(generation: Generation, transition: Transition, c: BringUpCall) returns (reply: Reply)
      requires WellFormed()
      modifies `state, sender, audioSender, sender.world
      ensures WellFormed() && (View(), reply) == BringUp(old(View()), generation, transition, c)
    {
      var video := StatisticsOf(Actor(sender.active, sender.completedGeneration, sender.feedback), generation);
      if video.Err? { return Err(SenderFailed(video.error)); }
      Elapse(c.beforeAudioStatistics);
      var previousAudio := None;
      if audioEnabled {
        var audio := AudioStatisticsOf(AudioActor(audioSender.active, audioSender.completedGeneration, []), generation);
        if audio.Err? { return Err(SenderFailed(audio.error)); }
        previousAudio := Some(audio.value);
      }
      reply := Raise(generation, transition, c);
      if reply.Ok? { reply := StartGraph(generation, c, video.value, previousAudio); }
    }

    method StartGeneration(generation: u64, c: BringUpCall) returns (reply: Reply)
      requires WellFormed()
      modifies `state, sender, audioSender, sender.world
      ensures WellFormed() && (View(), reply) == StartMedia(old(View()), generation, c)
    {
      if state != SessionState.Configured { return Err(WrongTransition); }
      if generation == 0 || activeGeneration != Some(generation) { return Err(InvalidRequest); }
      if !mediaReady { return Err(GraphFailed); }
      reply := BringUpMedia(generation, Transition.Start, c);
    }

    method ResumeGeneration(generation: u64, c: BringUpCall) returns (reply: Reply)
      requires WellFormed()
      modifies `state, sender, audioSender, sender.world
      ensures WellFormed() && (View(), reply) == ResumeMedia(old(View()), generation, c)
    {
      if state != SessionState.Suspended { return Err(WrongTransition); }
      if generation == 0 || activeGeneration != Some(generation) { return Err(InvalidRequest); }
      reply := BringUpMedia(generation, Transition.Resume, c);
    }

    method SuspendGeneration(c: SuspendCall) returns (reply: Reply)
      requires WellFormed()
      modifies `state, sender, audioSender, sender.world
      ensures WellFormed() && (View(), reply) == SuspendMedia(old(View()), c)
    {
      if state != SessionState.Streaming { return Err(WrongTransition); }
      if activeGeneration.None? || !c.graphOk { return Err(GraphFailed); }
      var generation := activeGeneration.value;
      Elapse(c.beforeAudio);
      var moved := MoveAudioSender(generation, Transition.Suspend);
      if moved.Err? { return Err(SenderFailed(moved.error)); }
      Elapse(c.beforeVideo);
      moved := MoveSender(generation, Transition.Suspend);
      if moved.Err? {
        Elapse(c.beforeRollback);
        var _ := MoveAudioSender(generation, Transition.Resume);
        return Err(SenderFailed(moved.error));
      }
      state := SessionState.Suspended;
      return DONE;
    }

    method ForgetGeneration(completed: Option<Generation>, next: SessionState)
      requires audioSender.Valid()
      modifies this
      ensures WellFormed() && negotiations == old(negotiations)
      ensures View() ==
                System(Reset(completed, next), sender.View(), audioSender.View(), negotiations, sender.world.trace)
    {
      activeGeneration, completedGeneration := None, completed;
      ResetFlags(false, 0);
      feedbackController, state := None, next;
    }

    method StopSenders(generation: Generation, c: StopCall) returns (ok: bool)
      requires WellFormed()
      modifies sender, audioSender, sender.world
      ensures var (t, audioOk) := StopAudioSender(old(View()), generation, c);
              var (u, videoOk) := StopVideoSender(t, generation, c);
              WellFormed() && View() == u && ok == (audioOk && videoOk)
    {
      var audioOk, videoOk := true, true;
      if audioSenderReceivedGeneration {
        var stopped := audioSender.StopActive(generation, c.audioOk);
        audioOk := stopped.Ok?;
      }
      if senderReceivedGeneration {
        var stopped := sender.StopActive(generation, c.videoOk);
        videoOk := stopped.Ok?;
      }
      ok := audioOk && videoOk;
    }

    method TearDownMedia(generation: Generation, c: StopCall) returns (ok: bool)
      requires WellFormed()
      modifies this, sender, audioSender, sender.world
      ensures WellFormed() && Repr() <= old(Repr()) && (View(), ok) == TearDown(old(View()), generation, c)
    {
      ok := StopSenders(generation, c);
      ForgetGeneration(Some(generation), Prepared);
      sender.world.trace := sender.world.trace + [Effect.Stopped(generation)];
    }

    method StopGeneration(generation: u64, c: StopCall) returns (reply: Reply)
      requires WellFormed()
      modifies this, sender, audioSender, sender.world
      ensures WellFormed() && Repr() <= old(Repr())
                && (View(), reply) == MediaSession.StopMedia(old(View()), generation, c)
    {
      if generation == 0 { return Err(InvalidRequest); }
      if state == Prepared && completedGeneration == Some(generation) { return DONE; }
      if !(state.Configured? || state.Streaming? || state.Suspended?) { return Err(WrongTransition); }
      if activeGeneration != Some(generation) { return Err(InvalidRequest); }
      var graphHad, transportHad := graphReceivedGeneration, transportActive;
      Elapse(c.meanwhile);
      var sendersOk := TearDownMedia(generation, c);
      reply := if graphHad && !c.graphOk then Err(GraphFailed)
               else if !sendersOk then Err(SenderFailed(ShutdownFailed))
               else if transportHad && !c.transportOk then Err(TransportFailed)
               else DONE;
    }

    method EndSession(c: ShutdownCall) returns (reply: Reply)
      requires WellFormed()
      modifies this, sender, audioSender, sender.world
      ensures WellFormed() && Repr() <= old(Repr()) && (View(), reply) == ShutdownSession(old(View()), c)
    {
      var audioResult := audioSender.ShutdownActive(c.audioOk);
      var videoResult := sender.ShutdownActive(c.videoOk);
      ForgetGeneration(completedGeneration, SessionState.Stopped);
      reply := if !c.graphOk then Err(GraphFailed)
               else if audioResult.Err? then Err(SenderFailed(audioResult.error))
               else if videoResult.Err? then Err(SenderFailed(videoResult.error))
               else DONE;
    }

    method Request(generation: Generation, action: Feedback.Action, c: FeedbackCall) returns (reply: Reply)
      requires WellFormed()
      modifies `videoBitrate, sender.world
      ensures WellFormed() && (View(), reply) == Ask(old(View()), generation, action, c)
    {
      match action {
        case ForceKeyFrame =>
          sender.world.trace := sender.world.trace + [Forced(generation)];
          if !c.keyFrameOk { return Err(GraphFailed); }
        case SetBitrate(_) =>
          sender.world.trace := sender.world.trace + [Adjusted(generation, action)];
          if c.bitrate.None? { return Err(GraphFailed); }
          videoBitrate := c.bitrate.value;
        case SetPlayoutDelay(_) =>
          var active := Matching(Actor(sender.active, sender.completedGeneration, sender.feedback), generation);
          if active.Err? { return Err(SenderFailed(active.error)); }
          if active.value.sender.None? { return Err(TransportFailed); }
          sender.world.trace := sender.world.trace + [Adjusted(generation, action)];
          if !c.playoutOk { return Err(TransportFailed); }
        case DisableAdaptivePlayoutDelay(_, _) =>
      }
      return DONE;
    }

    method Perform(generation: Generation, action: Feedback.Action, c: FeedbackCall) returns (reply: Reply)
      requires WellFormed()
      modifies `videoBitrate, sender, audioSender, sender.world
      ensures WellFormed() && (View(), reply) == CarryOut(old(View()), generation, action, c)
    {
      Elapse(c.Before(action));
      reply := Request(generation, action, c);
    }

    method PerformAll(generation: Generation, actions: seq<Feedback.Action>, c: FeedbackCall) returns (reply: Reply)
      requires WellFormed()
      modifies `videoBitrate, sender, audioSender, sender.world
      ensures WellFormed() && (View(), reply) == CarryOutAll(old(View()), generation, actions, c)
    {
      var i := 0;
      assert actions[0..] == actions;
      while i < |actions|
        invariant 0 <= i <= |actions| && WellFormed()
        invariant CarryOutAll(View(), generation, actions[i..], c) == CarryOutAll(old(View()), generation, actions, c)
      {
        assert actions[i..][0] == actions[i] && actions[i..][1..] == actions[i + 1..];
        reply := Perform(generation, actions[i], c);
        if reply.Err? { return; }
        i := i + 1;
      }
      reply := DONE;
    }

    method JudgeFeedback(c: FeedbackCall) returns (reply: Reply)
      requires WellFormed()
      modifies Repr()
      ensures WellFormed() && Repr() == old(Repr()) && (View(), reply) == MediaSession.HandleFeedback(old(View()), c)
    {
      var feedback := sender.feedback;
      if feedback.generation.None? || activeGeneration != feedback.generation || !mediaReady { return DONE; }
      if feedback.terminal { return Err(Terminal); }
      if feedbackController.None? { return DONE; }
      var actions := feedbackController.value.Observe(SnapshotOf(feedback), c.now);
      reply := PerformAll(activeGeneration.value, actions, c);
    }

    // ----- The operations -----

    method CompletePreparation(valid: bool) returns (reply: Reply)
      requires Valid()
      modifies `state
      ensures Valid() && (View(), reply) == MediaSession.CompletePreparation(old(View()), valid)
    {
      ApplyKeeps(View(), Prepare(valid));
      ApplyOwns(View(), Prepare(valid));
      if state != Created { return Err(WrongTransition); }
      if !valid { return Err(InvalidRequest); }
      state := Prepared;
      return DONE;
    }

    method Configure(c: ConfigureCall) returns (reply: Reply)
      requires Valid()
      modifies this, sender, audioSender, sender.world
      ensures Valid() && fresh(Repr() - old(Repr())) && (View(), reply) == ConfigureMedia(old(View()), c)
      ensures !(reply.Err? && reply.error.SenderFailed?) && Lifecycle.Admits(old(View()), c, View(), reply)
    {
      Lifecycle.ConfigureExactly(View(), c);
      ConfigureMediaKeeps(View(), c);
      ApplyOwns(View(), ConfigureOp(c));
      reply := ConfigureGeneration(c);
    }

    method Start(generation: u64, c: BringUpCall) returns (reply: Reply)
      requires Valid()
      modifies `state, sender, audioSender, sender.world
      ensures Valid() && (View(), reply) == StartMedia(old(View()), generation, c)
      ensures Lifecycle.Starts(old(View()), generation, c, View(), reply)
    {
      Lifecycle.StartExactly(View(), generation, c);
      ApplyKeeps(View(), StartOp(generation, c));
      ApplyOwns(View(), StartOp(generation, c));
      reply := StartGeneration(generation, c);
    }

    method Suspend(c: SuspendCall) returns (reply: Reply)
      requires Valid()
      modifies `state, sender, audioSender, sender.world
      ensures Valid() && (View(), reply) == SuspendMedia(old(View()), c)
      ensures Lifecycle.Suspends(old(View()), c, View(), reply)
    {
      Lifecycle.SuspendExactly(View(), c);
      SuspendMediaKeeps(View(), c);
      ApplyOwns(View(), SuspendOp(c));
      reply := SuspendGeneration(c);
    }

    method Resume(generation: u64, c: BringUpCall) returns (reply: Reply)
      requires Valid()
      modifies `state, sender, audioSender, sender.world
      ensures Valid() && (View(), reply) == ResumeMedia(old(View()), generation, c)
      ensures Lifecycle.Resumes(old(View()), generation, c, View(), reply)
    {
      Lifecycle.ResumeExactly(View(), generation, c);
      ApplyKeeps(View(), ResumeOp(generation, c));
      ApplyOwns(View(), ResumeOp(generation, c));
      reply := ResumeGeneration(generation, c);
    }

    method StopMedia(generation: u64, c: StopCall) returns (reply: Reply)
      requires Valid()
      modifies this, sender, audioSender, sender.world
      ensures Valid() && Repr() <= old(Repr()) && (View(), reply) == MediaSession.StopMedia(old(View()), generation, c)
      ensures Lifecycle.Stops(old(View()), generation, c, View(), reply)
    {
      Lifecycle.StopExactly(View(), generation, c);
      StopMediaKeeps(View(), generation, c);
      ApplyOwns(View(), StopOp(generation, c));
      reply := StopGeneration(generation, c);
    }

    method Shutdown(c: ShutdownCall) returns (reply: Reply)
      requires Valid()
      modifies this, sender, audioSender, sender.world
      ensures Valid() && Repr() <= old(Repr()) && (View(), reply) == ShutdownSession(old(View()), c)
      ensures Lifecycle.Ends(old(View()), c, View(), reply)
    {
      Lifecycle.ShutdownExactly(View(), c);
      ShutdownSessionKeeps(View(), c);
      ApplyOwns(View(), ShutdownOp(c));
      reply := EndSession(c);
    }

    method HandleFeedback(c: FeedbackCall) returns (reply: Reply)
      requires Valid()
      modifies Repr()
      ensures Valid() && Repr() == old(Repr()) && (View(), reply) == MediaSession.HandleFeedback(old(View()), c)
      ensures FeedbackDelivery.Reacts(old(View()), c, View(), reply)
    {
      FeedbackDelivery.FeedbackExactly(View(), c);
      HandleFeedbackKeeps(View(), c);
      FeedbackOwns(View(), c);
      reply := JudgeFeedback(c);
    }

    /** The actors take up events between the operations, too. */
    method LetActorsRun(events: seq<ActorEvent>)
      requires Valid()
      modifies sender, audioSender, sender.world
      ensures Valid() && View() == Drift(old(View()), events)
    {
      DriftInvariant(View(), events);
      DriftOwns(View(), events);
      Elapse(events);
    }
  }
}
