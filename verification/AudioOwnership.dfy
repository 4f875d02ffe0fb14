/** Who shuts down the audio senders, over whole runs of the media session. */
module AudioOwnership {
  import opened Common
  import opened MediaTrace
  import opened VideoSender
  import opened AudioSender
  import opened MediaSession
  import opened MediaInvariant
  import opened MediaRuns
  import Feedback
  import MediaLedger

  // ----- The ledger -----

  ghost function AudioShuts(ledger: AudioLedger, sender: nat): nat {
    if ledger == [] then 0
    else AudioShuts(ledger[..|ledger| - 1], sender) + if ledger[|ledger| - 1] == AudioShut(sender) then 1 else 0
  }

  /** The transport offered the sender, and the graph accepted the configuration it was offered for. */
  ghost predicate Owed(ledger: AudioLedger, sender: nat) {
    AudioOffered(sender) in ledger && GraphAnswered(sender, true) in ledger
  }

  /** Every sender owed a shutdown has had exactly one, but for the one still in use; no other has had any. */
  ghost predicate AudioLinear(ledger: AudioLedger, negotiations: nat, live: Option<nat>) {
    && (live.Some? ==> Owed(ledger, live.value))
    && (forall e :: e in ledger ==> e.sender < negotiations)
    && forall sender: nat ::
         AudioShuts(ledger, sender) == if Owed(ledger, sender) && live != Some(sender) then 1 else 0
  }

  lemma AudioShutsAppend(ledger: AudioLedger, e: AudioEffect, sender: nat)
    ensures AudioShuts(ledger + [e], sender) == AudioShuts(ledger, sender) + if e == AudioShut(sender) then 1 else 0
  {
    assert (ledger + [e])[..|ledger|] == ledger;
  }

  lemma OwedAppend(ledger: AudioLedger, e: AudioEffect, sender: nat)
    ensures Owed(ledger + [e], sender) <==>
              && (AudioOffered(sender) in ledger || e == AudioOffered(sender))
              && (GraphAnswered(sender, true) in ledger || e == GraphAnswered(sender, true))
  {
  }

  lemma LinearShut(ledger: AudioLedger, negotiations: nat, sender: nat)
    requires AudioLinear(ledger, negotiations, Some(sender))
    ensures AudioLinear(ledger + [AudioShut(sender)], negotiations, None)
  {
    var e := AudioShut(sender);
    assert sender < negotiations by { assert AudioOffered(sender) in ledger; }
    forall other: nat
      ensures AudioShuts(ledger + [e], other) == if Owed(ledger + [e], other) then 1 else 0
    {
      AudioShutsAppend(ledger, e, other);
      OwedAppend(ledger, e, other);
    }
  }

  lemma LinearRelease(ledger: AudioLedger, negotiations: nat, live: Option<nat>)
    requires AudioLinear(ledger, negotiations, live)
    ensures AudioLinear(ledger + ReleaseAudio(live), negotiations, None)
  {
    if live.Some? { LinearShut(ledger, negotiations, live.value); } else { assert ledger + [] == ledger; }
  }

  /** A new negotiation: whether a sender was offered, and what the graph answered. */
  function AfterNegotiation(ledger: AudioLedger, sender: nat, audio: bool, accepted: bool): AudioLedger {
    ledger + (if audio then [AudioOffered(sender)] else []) + [GraphAnswered(sender, accepted)]
  }

  lemma UnknownSender(ledger: AudioLedger, negotiations: nat, sender: nat)
    requires (forall e :: e in ledger ==> e.sender < negotiations) && sender >= negotiations
    ensures AudioOffered(sender) !in ledger && GraphAnswered(sender, true) !in ledger
  {
  }

  lemma LinearNegotiated(ledger: AudioLedger, negotiations: nat, audio: bool, accepted: bool)
    requires AudioLinear(ledger, negotiations, None)
    ensures AudioLinear(AfterNegotiation(ledger, negotiations, audio, accepted), negotiations + 1,
                        if audio && accepted then Some(negotiations) else None)
  {
    var n, answer := negotiations, GraphAnswered(negotiations, accepted);
    var offered := ledger + if audio then [AudioOffered(n)] else [];
    var all := offered + [answer];
    var live := if audio && accepted then Some(n) else None;
    UnknownSender(ledger, n, n);
    forall sender: nat
      ensures AudioShuts(all, sender) == if Owed(all, sender) && live != Some(sender) then 1 else 0
    {
      AudioShutsAppend(ledger, AudioOffered(n), sender);
      AudioShutsAppend(offered, answer, sender);
      assert !audio ==> offered == ledger;
      assert sender != n ==> (Owed(all, sender) <==> Owed(ledger, sender));
      assert sender == n ==> !Owed(ledger, n) && (Owed(all, n) <==> audio && accepted);
    }
  }

  // ----- The actor -----

  function AudioSenderOf(a: AudioActor): Option<nat> {
    if a.active.Some? then a.active.value.sender else None
  }

  ghost predicate AudioOwned(s: System) {
    AudioLinear(s.audio.ledger, s.negotiations, AudioSenderOf(s.audio))
  }

  /** An event shuts down the sender the actor drops, and no other. */
  lemma HappenOwns(s: System, e: ActorEvent)
    requires AudioOwned(s)
    ensures AudioOwned(Happen(s, e))
  {
    LinearRelease(s.audio.ledger, s.negotiations, AudioSenderOf(s.audio));
  }

  lemma {:induction false} DriftOwns(s: System, events: seq<ActorEvent>)
    requires AudioOwned(s)
    ensures AudioOwned(Drift(s, events))
    decreases events
  {
    if events == [] {
    } else {
      HappenOwns(s, events[0]);
      DriftOwns(Happen(s, events[0]), events[1..]);
    }
  }

  lemma MoveOwns(s: System, generation: Generation, transition: Transition)
    requires AudioOwned(s)
    ensures AudioOwned(MoveAudio(s, generation, transition).0) && AudioOwned(MoveVideo(s, generation, transition).0)
  {
  }

  // ----- The operations -----

  lemma SuspendSendersOwns(s: System, generation: Generation, c: BringUpCall)
    requires AudioOwned(s)
    ensures AudioOwned(SuspendSenders(s, generation, c))
  {
    var a := Drift(s, c.beforeRollback);
    DriftOwns(s, c.beforeRollback);
    MoveOwns(a, generation, Suspend);
    var t := MoveAudio(a, generation, Suspend).0;
    DriftOwns(t, c.duringRollback);
    MoveOwns(Drift(t, c.duringRollback), generation, Suspend);
  }

  lemma RaiseSendersOwns(s: System, generation: Generation, transition: Transition, c: BringUpCall)
    requires AudioOwned(s)
    ensures AudioOwned(RaiseSenders(s, generation, transition, c).0)
  {
    var a := Drift(s, c.beforeTransition);
    DriftOwns(s, c.beforeTransition);
    MoveOwns(a, generation, transition);
    var t := MoveVideo(a, generation, transition).0;
    var b := Drift(t, c.beforeAudioTransition);
    DriftOwns(t, c.beforeAudioTransition);
    MoveOwns(b, generation, transition);
    var u := MoveAudio(b, generation, transition).0;
    DriftOwns(u, c.duringRollback);
    MoveOwns(Drift(u, c.duringRollback), generation, Suspend);
  }

  lemma ConfirmOwns(
    s: System, generation: Generation, c: BringUpCall, video: Statistics, audio: Option<AudioStatistics>)
    requires AudioOwned(s)
    ensures AudioOwned(Confirm(s, generation, c, video, audio).0)
  {
    DriftOwns(s, c.frameWait);
    DriftOwns(Drift(s, c.frameWait), c.packetWait);
    var t := ConfirmDelivery(s, generation, c, video, audio).0;
    DriftOwns(t, c.ackWait);
    DriftOwns(Drift(t, c.ackWait), c.audioAckWait);
  }

  lemma RunGraphOwns(
    s: System, generation: Generation, c: BringUpCall, video: Statistics, audio: Option<AudioStatistics>)
    requires AudioOwned(s)
    ensures AudioOwned(RunGraph(s, generation, c, video, audio).0)
  {
    var t := Drift(s, c.beforeGraph);
    DriftOwns(s, c.beforeGraph);
    SuspendSendersOwns(t, generation, c);
    ConfirmOwns(t, generation, c, video, audio);
    SuspendSendersOwns(Confirm(t, generation, c, video, audio).0, generation, c);
  }

  lemma BringUpOwns(s: System, generation: Generation, transition: Transition, c: BringUpCall)
    requires AudioOwned(s)
    ensures AudioOwned(BringUp(s, generation, transition, c).0)
  {
    var video := StatisticsOf(s.video, generation);
    if video.Ok? {
      var t := Drift(s, c.beforeAudioStatistics);
      DriftOwns(s, c.beforeAudioStatistics);
      var audio := AudioStatisticsOf(t.audio, generation);
      if !s.session.audioEnabled || audio.Ok? {
        RaiseSendersOwns(t, generation, transition, c);
        RunGraphOwns(RaiseSenders(t, generation, transition, c).0, generation, c, video.value,
                     if s.session.audioEnabled then Some(audio.value) else None);
      }
    }
  }

  lemma SuspendOwns(s: System, c: SuspendCall)
    requires AudioOwned(s)
    ensures AudioOwned(SuspendMedia(s, c).0)
  {
    if s.session.active.Some? {
      var generation := s.session.active.value;
      var a := Drift(s, c.beforeAudio);
      DriftOwns(s, c.beforeAudio);
      MoveOwns(a, generation, Suspend);
      var t := MoveAudio(a, generation, Suspend).0;
      var b := Drift(t, c.beforeVideo);
      DriftOwns(t, c.beforeVideo);
      MoveOwns(b, generation, Suspend);
      var u := MoveVideo(b, generation, Suspend).0;
      DriftOwns(u, c.beforeRollback);
      MoveOwns(Drift(u, c.beforeRollback), generation, Resume);
    }
  }

  lemma TearDownOwns(s: System, generation: Generation, c: StopCall)
    requires AudioOwned(s)
    ensures AudioOwned(TearDown(s, generation, c).0)
  {
    LinearRelease(s.audio.ledger, s.negotiations, AudioSenderOf(s.audio));
  }

  lemma StopOwns(s: System, generation: u64, c: StopCall)
    requires AudioOwned(s)
    ensures AudioOwned(StopMedia(s, generation, c).0)
  {
    DriftOwns(s, c.meanwhile);
    if generation != 0 { TearDownOwns(Drift(s, c.meanwhile), generation, c); }
  }

  lemma ShutdownOwns(s: System, c: ShutdownCall)
    requires AudioOwned(s)
    ensures AudioOwned(ShutdownSession(s, c).0)
  {
    LinearRelease(s.audio.ledger, s.negotiations, AudioSenderOf(s.audio));
  }

  lemma {:induction false} CarryOutOwns(
    s: System, generation: Generation, actions: seq<Feedback.Action>, c: FeedbackCall)
    requires AudioOwned(s)
    ensures AudioOwned(CarryOutAll(s, generation, actions, c).0)
    decreases actions
  {
    if actions == [] {
    } else {
      var before := c.Before(actions[0]);
      DriftOwns(s, before);
      AskShape(Drift(s, before), generation, actions[0], c);
      CarryOutOwns(CarryOut(s, generation, actions[0], c).0, generation, actions[1..], c);
    }
  }

  lemma FeedbackOwns(s: System, c: FeedbackCall)
    requires AudioOwned(s)
    ensures AudioOwned(HandleFeedback(s, c).0)
  {
    if Heard(s) && s.session.controller.Some? {
      var (controller, actions) := Observe(s.session.controller.value, s.video.feedback, c.now);
      CarryOutOwns(s.(session := s.session.(controller := Some(controller))), s.session.active.value, actions, c);
    }
  }

  /** With a sender in hand that is owed a shutdown, an idle actor takes it or it is shut down. */
  lemma AttachOwns(s: System, c: ConfigureCall, sender: nat)
    requires c.generation > 0 && c.negotiation.Some? && s.audio.active.None?
    requires AudioLinear(s.audio.ledger, s.negotiations, if c.negotiation.value.audioSender then Some(sender) else None)
    ensures AudioOwned(AttachSenders(s, c, sender).0)
  {
    if c.negotiation.value.audioSender { LinearShut(s.audio.ledger, s.negotiations, sender); }
  }

  lemma SetUpOwns(s: System, c: ConfigureCall)
    requires c.generation > 0 && c.negotiation.Some? && s.audio.active.None? && AudioOwned(s)
    ensures AudioOwned(SetUpMedia(s, c).0)
  {
    var sender, audio := s.negotiations, c.negotiation.value.audioSender;
    var t := Record(Negotiate(s, audio), [GraphAnswered(sender, c.graphOk)]);
    LinearNegotiated(s.audio.ledger, sender, audio, c.graphOk);
    assert t.audio.ledger == AfterNegotiation(s.audio.ledger, sender, audio, c.graphOk);
    if c.graphOk { AttachOwns(t, c, sender); }
  }

  lemma ConfigureOwns(s: System, c: ConfigureCall)
    requires Invariant(s) && AudioOwned(s)
    ensures AudioOwned(ConfigureMedia(s, c).0)
  {
    if Refusal(s, c).None? && c.negotiation.Some? { SetUpOwns(Admitted(s, c), c); }
  }

  lemma ApplyOwns(s: System, op: Operation)
    requires Invariant(s) && AudioOwned(s)
    ensures AudioOwned(Apply(s, op))
  {
    match op {
      case Prepare(_) =>
      case ConfigureOp(c) => ConfigureOwns(s, c);
      case StartOp(generation, c) => if generation != 0 { BringUpOwns(s, generation, Start, c); }
      case ResumeOp(generation, c) => if generation != 0 { BringUpOwns(s, generation, Resume, c); }
      case SuspendOp(c) => SuspendOwns(s, c);
      case StopOp(generation, c) => StopOwns(s, generation, c);
      case FeedbackOp(c) => FeedbackOwns(s, c);
      case ShutdownOp(c) => ShutdownOwns(s, c);
      case ActorOp(e) => HappenOwns(s, e);
    }
  }

  // ----- Runs -----

  lemma {:induction false} RunOwns(states: seq<System>, ops: seq<Operation>, n: nat)
    requires IsRun(states, ops) && n < |states|
    ensures AudioOwned(states[n])
  {
    if n == 0 {
    } else {
      RunOwns(states, ops, n - 1);
      RunInvariant(states, ops, n - 1);
      ApplyOwns(states[n - 1], ops[n - 1]);
    }
  }

  /**
   * In every run no audio sender is shut down twice, and once the session is Prepared again or Stopped an audio sender
   * has been shut down if and only if it was offered and the graph accepted its configuration.
   */
  lemma AudioShutDownExactly(states: seq<System>, ops: seq<Operation>, n: nat, sender: nat)
    requires IsRun(states, ops) && n < |states|
    ensures var s := states[n];
            && AudioShuts(s.audio.ledger, sender) <= 1
            && (s.session.state.Prepared? || s.session.state.Stopped? ==>
                  (AudioShuts(s.audio.ledger, sender) == 1 <==> Owed(s.audio.ledger, sender)))
  {
    RunOwns(states, ops, n);
    RunInvariant(states, ops, n);
  }

  /** A run that loses one: the graph refuses, and the audio sender is dropped without being shut down. */
  lemma AudioSenderLost() returns (states: seq<System>, ops: seq<Operation>)
    ensures IsRun(states, ops) && |ops| == 3 && states[3].session.state.Prepared?
    ensures AudioOffered(0) in states[3].audio.ledger && AudioShuts(states[3].audio.ledger, 0) == 0
    ensures MediaLedger.Shuts(states[3].trace, 0) == 1
  {
    var call := ConfigureCall(1, true, true, true, 1, Some(Negotiation(true, 0, None)), false);
    var stop := StopCall(true, true, true, true, []);
    ops := [Prepare(true), ConfigureOp(call), StopOp(1, stop)];
    var a := Apply(NEW_SYSTEM, ops[0]);
    var b := Apply(a, ops[1]);
    var d := Apply(b, ops[2]);
    states := [NEW_SYSTEM, a, b, d];
    assert a.session.state.Prepared? && Refusal(a, call).None?;
    assert b.session.state.Configured? && b.session.active == Some(1);
    assert d.audio.ledger == [AudioOffered(0), GraphAnswered(0, false)];
    AudioShutDownExactly(states, ops, 3, 0);
    assert !Owed(d.audio.ledger, 0);
    SendersShutDownOnce(states, ops, 3, 0);
  }
}
