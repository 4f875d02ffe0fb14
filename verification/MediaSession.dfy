/**
 * The session's media state machine, together with the two sender actors it drives. The actors run on their own: every
 * operation that talks to them is given the events they take up between its requests.
 */
module MediaSession {
  import opened Common
  import opened MediaTrace
  import opened VideoSender
  import opened AudioSender
  import Feedback
  import VideoFeedback

  datatype SessionState = Created | Prepared | Configured | Streaming | Suspended | Stopped

  type Controller = c: VideoFeedback.Controller | c.Bounded() witness VideoFeedback.NewController(1, 0, None)

  datatype Session = Session(
    state: SessionState,
    active: Option<Generation>,
    completed: Option<Generation>,
    graphReceived: bool,
    senderReceived: bool,
    audioReceived: bool,
    transportActive: bool,
    audioEnabled: bool,
    mediaReady: bool,
    videoBitrate: u64,
    controller: Option<Controller>)

  datatype System = System(session: Session, video: Actor, audio: AudioActor, negotiations: nat, trace: Trace)

  const IDLE := Session(Created, None, None, false, false, false, false, false, false, 0, None)

  const NEW_SYSTEM := System(IDLE, NEW_ACTOR, NEW_AUDIO_ACTOR, 0, [])

  datatype SessionError =
    | InvalidRequest | WrongTransition | GraphFailed | TransportFailed
    | SenderFailed(error: Error) | Unconfirmed | Terminal

  type Reply = Result<Common.Unit, SessionError>

  const DONE: Reply := Ok(Common.Unit)

  // ----- The actors, left to themselves -----

  datatype ActorEvent = OfVideo(video: VideoSender.Event) | OfAudio(audio: AudioEvent)

  function OnVideo(s: System, step: (Actor, Trace)): System {
    s.(video := step.0, trace := s.trace + step.1)
  }

  function Happen(s: System, e: ActorEvent): System {
    match e
    case OfVideo(event) => OnVideo(s, Take(s.video, event))
    case OfAudio(event) => s.(audio := TakeAudio(s.audio, event))
  }

  function Drift(s: System, events: seq<ActorEvent>): System
    decreases events
  {
    if events == [] then s else Drift(Happen(s, events[0]), events[1..])
  }

  // ----- Prepare and ConfigureMedia -----

  function CompletePreparation(s: System, valid: bool): (System, Reply) {
    if s.session.state != Created then (s, Err(WrongTransition))
    else if !valid then (s, Err(InvalidRequest))
    else (s.(session := s.session.(state := Prepared)), DONE)
  }

  /** What a successful negotiation returns besides the video sender. */
  datatype Negotiation = Negotiation(audioSender: bool, minimumBitrate: u64,
      playout: Option<Feedback.PlayoutConfiguration>)

  /** A ConfigureMedia request, and the answers of the ports it crosses. */
  datatype ConfigureCall = ConfigureCall(
    generation: u64,
    wellFormed: bool,
    supported: bool,
    audioEnabled: bool,
    bitrate: NonZeroU64,
    negotiation: Option<Negotiation>,
    graphOk: bool)

  function Refusal(s: System, c: ConfigureCall): Option<SessionError> {
    if !c.wellFormed || c.generation == 0 then Some(InvalidRequest)
    else if s.session.state != Prepared then Some(WrongTransition)
    else if NotNewerThan(c.generation, s.session.completed) then Some(InvalidRequest)
    else if !c.supported then Some(InvalidRequest)
    else None
  }

  /** The generation is admitted before anything is asked of the ports. */
  function Admitted(s: System, c: ConfigureCall): System
    requires c.generation > 0
  {
    s.(session := s.session.(
         active := Some(c.generation), graphReceived := false, senderReceived := false, audioReceived := false,
         transportActive := false, audioEnabled := c.audioEnabled, mediaReady := false, videoBitrate := c.bitrate,
         state := SessionState.Configured))
  }

  function Discard(s: System, sender: nat): System {
    s.(trace := s.trace + [ShutDown(sender)])
  }

  function Record(s: System, effects: AudioLedger): System {
    s.(audio := s.audio.(ledger := s.audio.ledger + effects))
  }

  /** The transport hands out a video sender and perhaps an audio sender, under one number. */
  function Negotiate(s: System, audio: bool): System {
    Record(s.(session := s.session.(transportActive := true, graphReceived := true),
              negotiations := s.negotiations + 1, trace := s.trace + [Negotiated(s.negotiations)]),
           if audio then [AudioOffered(s.negotiations)] else [])
  }

  function AttachAudio(s: System, c: ConfigureCall, sender: nat): (System, Reply)
    requires c.generation > 0 && c.negotiation.Some?
  {
    match (c.audioEnabled, c.negotiation.value.audioSender)
    case (true, true) =>
      var (audio, result) := ConfigureAudio(s.audio, c.generation, sender);
      var t := s.(audio := audio);
      if result.Err? then (Discard(t, sender), Err(SenderFailed(result.error)))
      else (t.(session := t.session.(audioReceived := true)), DONE)
    case (true, false) => (Discard(s, sender), Err(TransportFailed))
    case (false, true) => (Discard(Record(s, [AudioShut(sender)]), sender), Err(TransportFailed))
    case (false, false) => (s, DONE)
  }

  function AttachVideo(s: System, generation: Generation, sender: nat): (System, Reply) {
    var (video, effects, result) := Configure(s.video, generation, sender, false);
    var t := OnVideo(s, (video, effects));
    if result.Err? then (t, Err(SenderFailed(result.error)))
    else (t.(session := t.session.(senderReceived := true, mediaReady := true)), DONE)
  }

  function AttachSenders(s: System, c: ConfigureCall, sender: nat): (System, Reply)
    requires c.generation > 0 && c.negotiation.Some?
  {
    var n := c.negotiation.value;
    var controller := VideoFeedback.NewController(c.bitrate, n.minimumBitrate, n.playout);
    var (t, reply) := AttachAudio(s.(session := s.session.(controller := Some(controller))), c, sender);
    if reply.Err? then (t, reply) else AttachVideo(t, c.generation, sender)
  }

  function SetUpMedia(s: System, c: ConfigureCall): (System, Reply)
    requires c.generation > 0 && c.negotiation.Some?
  {
    var sender := s.negotiations;
    var t := Record(Negotiate(s, c.negotiation.value.audioSender), [GraphAnswered(sender, c.graphOk)]);
    if !c.graphOk then (Discard(t, sender), Err(GraphFailed)) else AttachSenders(t, c, sender)
  }

  function ConfigureMedia(s: System, c: ConfigureCall): (System, Reply) {
    var refusal := Refusal(s, c);
    if refusal.Some? then (s, Err(refusal.value))
    else if c.negotiation.None? then (Admitted(s, c), Err(TransportFailed))
    else SetUpMedia(Admitted(s, c), c)
  }

  // ----- Start, Resume and Suspend -----

  /** What happens during Start or Resume: the events before each request, the graph's answer, and the four waits. */
  datatype BringUpCall = BringUpCall(
    beforeAudioStatistics: seq<ActorEvent>,
    beforeTransition: seq<ActorEvent>,
    beforeAudioTransition: seq<ActorEvent>,
    beforeGraph: seq<ActorEvent>,
    graphOk: bool,
    frameWait: seq<ActorEvent>,
    packetWait: seq<ActorEvent>,
    ackWait: seq<ActorEvent>,
    audioAckWait: seq<ActorEvent>,
    beforeRollback: seq<ActorEvent>,
    duringRollback: seq<ActorEvent>)

  function Guard(s: System, generation: u64, required: SessionState): Option<SessionError> {
    if s.session.state != required then Some(WrongTransition)
    else if generation == 0 || s.session.active != Some(generation) then Some(InvalidRequest)
    else None
  }

  function MoveVideo(s: System, generation: Generation, transition: Transition): (System, Result<Common.Unit, Error>) {
    var (video, result) := Transit(s.video, generation, transition);
    (s.(video := video), result)
  }

  function MoveAudio(s: System, generation: Generation, transition: Transition): (System, Result<Common.Unit, Error>) {
    if !s.session.audioEnabled then (s, Ok(Common.Unit))
    else
      var (audio, result) := TransitAudio(s.audio, generation, transition);
      (s.(audio := audio), result)
  }

  /** `suspend_senders_best_effort`. */
  function SuspendSenders(s: System, generation: Generation, c: BringUpCall): System {
    var t := MoveAudio(Drift(s, c.beforeRollback), generation, Suspend).0;
    MoveVideo(Drift(t, c.duringRollback), generation, Suspend).0
  }

  predicate VideoBeyond(s: System, generation: Generation, counter: Statistics -> u64, previous: u64) {
    var r := StatisticsOf(s.video, generation);
    r.Ok? && counter(r.value) > previous
  }

  predicate AudioBeyond(s: System, generation: Generation, previous: u64) {
    var r := AudioStatisticsOf(s.audio, generation);
    r.Ok? && r.value.packets > previous
  }

  /** The transport has taken a frame, and a packet where there is audio. */
  function ConfirmDelivery(s: System, generation: Generation, c: BringUpCall, video: Statistics,
      audio: Option<AudioStatistics>): (System, bool) {
    var t := Drift(s, c.frameWait);
    if !VideoBeyond(t, generation, (x: Statistics) => x.frames, video.frames) then (t, false)
    else if audio.None? then (t, true)
    else var u := Drift(t, c.packetWait); (u, AudioBeyond(u, generation, audio.value.packets))
  }

  /** The receiver has acknowledged a frame, and a packet where there is audio. */
  function ConfirmReceipt(s: System, generation: Generation, c: BringUpCall, video: Statistics,
      audio: Option<AudioStatistics>): (System, bool) {
    var t := Drift(s, c.ackWait);
    if !VideoBeyond(t, generation, (x: Statistics) => x.acknowledgedFrames, video.acknowledgedFrames) then (t, false)
    else if audio.None? then (t, true)
    else
      var u := Drift(t, c.audioAckWait);
      (u, VideoBeyond(u, generation, (x: Statistics) => x.acknowledgedAudioPackets, video.acknowledgedAudioPackets))
  }

  /** `wait_for_media_confirmation`. */
  function Confirm(s: System, generation: Generation, c: BringUpCall, video: Statistics,
      audio: Option<AudioStatistics>): (System, bool) {
    var (t, delivered) := ConfirmDelivery(s, generation, c, video, audio);
    if !delivered then (t, false) else ConfirmReceipt(t, generation, c, video, audio)
  }

  /** From the statistics before the transition to the graph. */
  function RaiseSenders(s: System, generation: Generation, transition: Transition, c: BringUpCall): (System, Reply) {
    var (t, moved) := MoveVideo(Drift(s, c.beforeTransition), generation, transition);
    if moved.Err? then (t, Err(SenderFailed(moved.error)))
    else
      var (u, audioMoved) := MoveAudio(Drift(t, c.beforeAudioTransition), generation, transition);
      if audioMoved.Err? then
          (MoveVideo(Drift(u, c.duringRollback), generation, Suspend).0, Err(SenderFailed(audioMoved.error)))
      else (u, DONE)
  }

  function RunGraph(s: System, generation: Generation, c: BringUpCall, video: Statistics,
      audio: Option<AudioStatistics>): (System, Reply) {
    var t := Drift(s, c.beforeGraph);
    if !c.graphOk then (SuspendSenders(t, generation, c), Err(GraphFailed))
    else
      var (u, confirmed) := Confirm(t, generation, c, video, audio);
      if !confirmed then (SuspendSenders(u, generation, c), Err(Unconfirmed))
      else (u.(session := u.session.(state := SessionState.Streaming)), DONE)
  }

  function BringUp(s: System, generation: Generation, transition: Transition, c: BringUpCall): (System, Reply) {
    var video := StatisticsOf(s.video, generation);
    if video.Err? then (s, Err(SenderFailed(video.error)))
    else
      var t := Drift(s, c.beforeAudioStatistics);
      var audio := AudioStatisticsOf(t.audio, generation);
      if s.session.audioEnabled && audio.Err? then (t, Err(SenderFailed(audio.error)))
      else
        var (u, reply) := RaiseSenders(t, generation, transition, c);
        if reply.Err? then (u, reply)
        else RunGraph(u, generation, c, video.value, if s.session.audioEnabled then Some(audio.value) else None)
  }

  function StartMedia(s: System, generation: u64, c: BringUpCall): (System, Reply) {
    var refusal := Guard(s, generation, SessionState.Configured);
    if refusal.Some? then (s, Err(refusal.value))
    else if !s.session.mediaReady then (s, Err(GraphFailed))
    else BringUp(s, generation, Start, c)
  }

  function ResumeMedia(s: System, generation: u64, c: BringUpCall): (System, Reply) {
    var refusal := Guard(s, generation, SessionState.Suspended);
    if refusal.Some? then (s, Err(refusal.value)) else BringUp(s, generation, Resume, c)
  }

  datatype SuspendCall = SuspendCall(
    graphOk: bool, beforeAudio: seq<ActorEvent>, beforeVideo: seq<ActorEvent>, beforeRollback: seq<ActorEvent>)

  function SuspendMedia(s: System, c: SuspendCall): (System, Reply) {
    if s.session.state != SessionState.Streaming then (s, Err(WrongTransition))
    else if s.session.active.None? || !c.graphOk then (s, Err(GraphFailed))
    else
      var generation := s.session.active.value;
      var (t, audioMoved) := MoveAudio(Drift(s, c.beforeAudio), generation, Suspend);
      if audioMoved.Err? then (t, Err(SenderFailed(audioMoved.error)))
      else
        var (u, moved) := MoveVideo(Drift(t, c.beforeVideo), generation, Suspend);
        if moved.Err? then (MoveAudio(Drift(u, c.beforeRollback), generation, Resume).0, Err(SenderFailed(moved.error)))
        else (u.(session := u.session.(state := SessionState.Suspended)), DONE)
  }

  // ----- StopMedia and Shutdown -----

  /**
   * The four teardowns run side by side and touch nothing in common, so all that happens meanwhile may be put first.
   */
  datatype StopCall = StopCall(graphOk: bool, audioOk: bool, videoOk: bool, transportOk: bool,
      meanwhile: seq<ActorEvent>)

  function Reset(completed: Option<Generation>, state: SessionState): Session {
    IDLE.(state := state, completed := completed)
  }

  function StopAudioSender(s: System, generation: Generation, c: StopCall): (System, bool) {
    if !s.session.audioReceived then (s, true)
    else var (audio, result) := StopAudio(s.audio, generation, c.audioOk); (s.(audio := audio), result.Ok?)
  }

  function StopVideoSender(s: System, generation: Generation, c: StopCall): (System, bool) {
    if !s.session.senderReceived then (s, true)
    else var (video, effects, result) := Stop(s.video, generation, c.videoOk);
        (OnVideo(s, (video, effects)), result.Ok?)
  }

  function TearDown(s: System, generation: Generation, c: StopCall): (System, bool) {
    var (t, audioOk) := StopAudioSender(s, generation, c);
    var (u, videoOk) := StopVideoSender(t, generation, c);
    (u.(session := Reset(Some(generation), Prepared), trace := u.trace + [Effect.Stopped(generation)]), audioOk
        && videoOk)
  }

  function StopMedia(s: System, generation: u64, c: StopCall): (System, Reply) {
    if generation == 0 then (s, Err(InvalidRequest))
    else if s.session.state == Prepared && s.session.completed == Some(generation) then (s, DONE)
    else if !(s.session.state.Configured? || s.session.state.Streaming? || s.session.state.Suspended?) then
        (s, Err(WrongTransition))
    else if s.session.active != Some(generation) then (s, Err(InvalidRequest))
    else
      var (t, sendersOk) := TearDown(Drift(s, c.meanwhile), generation, c);
      (t, if s.session.graphReceived && !c.graphOk then Err(GraphFailed)
          else if !sendersOk then Err(SenderFailed(ShutdownFailed))
          else if s.session.transportActive && !c.transportOk then Err(TransportFailed)
          else DONE)
  }

  datatype ShutdownCall = ShutdownCall(graphOk: bool, audioOk: bool, videoOk: bool)

  function ShutdownSession(s: System, c: ShutdownCall): (System, Reply) {
    var (video, effects, videoResult) := Shutdown(s.video, c.videoOk);
    var (audio, audioResult) := ShutdownAudio(s.audio, c.audioOk);
    (OnVideo(s, (video, effects)).(audio := audio, session := Reset(s.session.completed, SessionState.Stopped)),
     if !c.graphOk then Err(GraphFailed)
     else if audioResult.Err? then Err(SenderFailed(audioResult.error))
     else if videoResult.Err? then Err(SenderFailed(videoResult.error))
     else DONE)
  }

  // ----- Feedback -----

  function SnapshotOf(f: SenderFeedback): VideoFeedback.Snapshot {
    VideoFeedback.Snapshot(f.keyFrameRequests, f.pressure)
  }

  function Observe(c: Controller, f: SenderFeedback, now: Instant): (Controller, seq<Feedback.Action>) {
    VideoFeedback.ObservedBounded(c, SnapshotOf(f), now);
    VideoFeedback.Observed(c, SnapshotOf(f), now)
  }

  /**
   * The time of an observation, the answers of the ports, and the events the actors take up before each request: a
   * bitrate is answered by the one the graph has set.
   */
  datatype FeedbackCall = FeedbackCall(
    now: Instant,
    beforeKeyFrame: seq<ActorEvent>,
    keyFrameOk: bool,
    beforeBitrate: seq<ActorEvent>,
    bitrate: Option<u64>,
    beforePlayout: seq<ActorEvent>,
    playoutOk: bool)
  {
    function Before(action: Feedback.Action): seq<ActorEvent> {
      match action
      case ForceKeyFrame => beforeKeyFrame
      case SetBitrate(_) => beforeBitrate
      case SetPlayoutDelay(_) => beforePlayout
      case DisableAdaptivePlayoutDelay(_, _) => []
    }
  }

  /** One action of the controller, asked of its port. */
  function Ask(s: System, generation: Generation, action: Feedback.Action, c: FeedbackCall): (System, Reply) {
    match action
    case ForceKeyFrame =>
      (s.(trace := s.trace + [Forced(generation)]), if c.keyFrameOk then DONE else Err(GraphFailed))
    case SetBitrate(_) =>
      var t := s.(trace := s.trace + [Adjusted(generation, action)]);
      if c.bitrate.None? then (t, Err(GraphFailed))
      else (t.(session := t.session.(videoBitrate := c.bitrate.value)), DONE)
    case SetPlayoutDelay(_) =>
      var active := Matching(s.video, generation);
      if active.Err? then (s, Err(SenderFailed(active.error)))
      else if active.value.sender.None? then (s, Err(TransportFailed))
      else (s.(trace := s.trace + [Adjusted(generation, action)]), if c.playoutOk then DONE else Err(TransportFailed))
    case DisableAdaptivePlayoutDelay(_, _) => (s, DONE)
  }

  function CarryOut(s: System, generation: Generation, action: Feedback.Action, c: FeedbackCall): (System, Reply) {
    Ask(Drift(s, c.Before(action)), generation, action, c)
  }

  /** The actions in order, up to the first that fails. */
  function CarryOutAll(s: System, generation: Generation, actions: seq<Feedback.Action>, c: FeedbackCall)
    : (System, Reply)
    decreases actions
  {
    if actions == [] then (s, DONE)
    else
      var (t, reply) := CarryOut(s, generation, actions[0], c);
      if reply.Err? then (t, reply) else CarryOutAll(t, generation, actions[1..], c)
  }

  /** Only feedback of the active, ready generation reaches the controller. */
  predicate Heard(s: System) {
    s.video.feedback.generation.Some? && s.session.active == s.video.feedback.generation && s.session.mediaReady
  }

  /**
   * The feedback published last is read and judged by the controller, and its actions are carried out. The actor may
   * have overtaken what was read before any of the requests reaches its port.
   */
  function HandleFeedback(s: System, c: FeedbackCall): (System, Reply) {
    if !Heard(s) then (s, DONE)
    else if s.video.feedback.terminal then (s, Err(Terminal))
    else if s.session.controller.None? then (s, DONE)
    else
      var (controller, actions) := Observe(s.session.controller.value, s.video.feedback, c.now);
      CarryOutAll(s.(session := s.session.(controller := Some(controller))), s.session.active.value, actions, c)
  }

  // ----- Steps -----

  datatype Operation =
    | Prepare(valid: bool)
    | ConfigureOp(configuration: ConfigureCall)
    | StartOp(generation: u64, bringUp: BringUpCall)
    | SuspendOp(suspension: SuspendCall)
    | ResumeOp(generation: u64, bringUp: BringUpCall)
    | StopOp(generation: u64, stop: StopCall)
    | FeedbackOp(feedback: FeedbackCall)
    | ShutdownOp(shutdown: ShutdownCall)
    | ActorOp(event: ActorEvent)

  function Apply(s: System, op: Operation): System {
    match op
    case Prepare(valid) => CompletePreparation(s, valid).0
    case ConfigureOp(c) => ConfigureMedia(s, c).0
    case StartOp(generation, c) => StartMedia(s, generation, c).0
    case SuspendOp(c) => SuspendMedia(s, c).0
    case ResumeOp(generation, c) => ResumeMedia(s, generation, c).0
    case StopOp(generation, c) => StopMedia(s, generation, c).0
    case FeedbackOp(c) => HandleFeedback(s, c).0
    case ShutdownOp(c) => ShutdownSession(s, c).0
    case ActorOp(event) => Happen(s, event)
  }
}
