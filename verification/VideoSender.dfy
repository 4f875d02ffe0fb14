/** The actor that owns one negotiated Cast video sender per media generation. */
module VideoSender {
  import opened Common
  import Feedback
  import opened MediaTrace

  datatype State = Configured | Streaming | Suspended | Failed

  datatype Transition = Start | Suspend | Resume {
    function Required(): State {
      match this case Start => State.Configured case Suspend => Streaming case Resume => Suspended
    }
    function Desired(): State {
      match this case Start => Streaming case Suspend => Suspended case Resume => Streaming
    }
  }

  datatype Statistics = Statistics(
    frames: u64,
    acknowledgedFrames: u64,
    acknowledgedAudioPackets: u64,
    keyFrames: u64,
    encodedBytes: u64,
    droppedFrames: u64)

  const NO_STATISTICS := Statistics(0, 0, 0, 0, 0, 0)

  datatype ActiveSender = ActiveSender(
    generation: Generation,
    state: State,
    sender: Option<nat>,
    feedbackOpen: bool,
    observedKeyFrameRequests: u64,
    pressureLimited: bool,
    needsKeyFrame: bool,
    statistics: Statistics)

  /** What the actor publishes to the session. */
  datatype SenderFeedback = SenderFeedback(
    revision: u64,
    generation: Option<Generation>,
    keyFrameRequests: u64,
    acknowledgedFrames: u64,
    pressure: Option<Feedback.Pressure>,
    terminal: bool)

  datatype Actor = Actor(active: Option<ActiveSender>, completed: Option<Generation>, feedback: SenderFeedback)

  const NEW_ACTOR := Actor(None, None, SenderFeedback(0, None, 0, 0, None, false))

  datatype SendOutcome = SendAccepted | SendCongested | SendFailed

  /** What the actor takes up by itself, between the commands of its session. */
  datatype Event =
    | Unit(accessUnit: AccessUnit, outcome: SendOutcome)
    | SourceClosed
    | Reported(incoming: TransportFeedback)
    | FeedbackClosed

  datatype Error = AudioAttached | AlreadyActive | NotNewer | NotActive | OtherGeneration | WrongState | ShutdownFailed

  function Saturating(x: int): (r: u64)
    requires x >= 0
  {
    Min(x, U64_MAX)
  }

  predicate NotNewerThan(generation: Generation, completed: Option<Generation>) {
    completed.Some? && generation <= completed.value
  }

  // ----- Commands -----

  function Configure(a: Actor, generation: Generation, sender: nat, audioAttached: bool): (Actor, Trace,
      Result<Common.Unit, Error>) {
    if audioAttached then (a, [ShutDown(sender)], Err(AudioAttached))
    else if a.active.Some? then (a, [ShutDown(sender)], Err(AlreadyActive))
    else if NotNewerThan(generation, a.completed) then (a, [ShutDown(sender)], Err(NotNewer))
    else
      (a.(active :=
          Some(ActiveSender(generation, State.Configured, Some(sender), true, 0, false, false, NO_STATISTICS)),
          feedback := SenderFeedback(Saturating(a.feedback.revision + 1), Some(generation), 0, 0, None, false)),
       [Effect.Configured(generation, sender)], Ok(Common.Unit))
  }

  function Matching(a: Actor, generation: Generation): Result<ActiveSender, Error> {
    if a.active.None? then Err(NotActive)
    else if a.active.value.generation != generation then Err(OtherGeneration)
    else Ok(a.active.value)
  }

  function Transit(a: Actor, generation: Generation, transition: Transition): (Actor, Result<Common.Unit, Error>) {
    match Matching(a, generation)
    case Err(error) => (a, Err(error))
    case Ok(active) =>
      if active.state != transition.Required() then (a, Err(WrongState))
      else (a.(active := Some(active.(state := transition.Desired()))), Ok(Common.Unit))
  }

  /** `active_statistics` while a generation is active; the session asks at no other time. */
  function StatisticsOf(a: Actor, generation: Generation): Result<Statistics, Error> {
    match Matching(a, generation)
    case Err(error) => Err(error)
    case Ok(active) => if active.state.Failed? then Err(WrongState) else Ok(active.statistics)
  }

  function Release(sender: Option<nat>): Trace {
    if sender.Some? then [ShutDown(sender.value)] else []
  }

  function Stop(a: Actor, generation: Generation, shutdownOk: bool): (Actor, Trace, Result<Statistics, Error>) {
    if a.active.None? then
      (a, [], if a.completed == Some(generation) then Ok(NO_STATISTICS) else Err(NotActive))
    else if a.active.value.generation != generation then (a, [], Err(OtherGeneration))
    else
      var active := a.active.value;
      if active.sender.Some? && !shutdownOk then (a.(active := None), Release(active.sender), Err(ShutdownFailed))
      else (a.(active := None, completed := Some(generation)), Release(active.sender), Ok(active.statistics))
  }

  function Shutdown(a: Actor, shutdownOk: bool): (Actor, Trace, Result<Common.Unit, Error>) {
    if a.active.None? then (a, [], Ok(Common.Unit))
    else
      var sender := a.active.value.sender;
      (a.(active := None), Release(sender), if sender.Some?
          && !shutdownOk then Err(ShutdownFailed) else Ok(Common.Unit))
  }

  // ----- Events -----

  function Fail(a: Actor): (Actor, Trace)
    requires a.active.Some?
  {
    var active := a.active.value;
    (a.(active := Some(active.(state := Failed, feedbackOpen := false, sender := None)),
        feedback := a.feedback.(revision := Saturating(a.feedback.revision + 1), generation :=
            Some(active.generation), terminal := true)),
     Release(active.sender))
  }

  function Publish(f: SenderFeedback, generation: Generation, request: bool, acknowledged: u64,
      pressure: Option<Feedback.Pressure>): SenderFeedback {
    f.(revision := Saturating(f.revision + 1), generation := Some(generation),
       keyFrameRequests := Saturating(f.keyFrameRequests + if request then 1 else 0),
       acknowledgedFrames := acknowledged,
       pressure := if pressure.Some? then pressure else f.pressure)
  }

  /** The sender asks for more than it did. */
  predicate Asks(s: ActiveSender,
      incoming: TransportFeedback) { incoming.keyFrameRequests > s.observedKeyFrameRequests }

  /** Congestion has set in or gone away. */
  predicate Turns(s: ActiveSender, incoming: TransportFeedback) {
    incoming.pressure.Some? && incoming.pressure.value.QueueSaturated() != s.pressureLimited
  }

  /** Frames are under way and none has ever arrived. */
  predicate Starves(incoming: TransportFeedback) {
    incoming.pressure.Some? && incoming.acknowledgedFrames == 0 && incoming.pressure.value.inFlightFrames != 0
  }

  function Noted(s: ActiveSender, incoming: TransportFeedback): ActiveSender {
    s.(statistics := s.statistics.(acknowledgedFrames := incoming.acknowledgedFrames,
                                   acknowledgedAudioPackets := incoming.acknowledgedAudioPackets),
       observedKeyFrameRequests := Max(s.observedKeyFrameRequests, incoming.keyFrameRequests),
       pressureLimited := if Turns(s, incoming) then !s.pressureLimited else s.pressureLimited,
       needsKeyFrame := s.needsKeyFrame || Asks(s, incoming) || Turns(s, incoming) || Starves(incoming))
  }

  predicate RequestsKeyFrame(s: ActiveSender, incoming: TransportFeedback) {
    Asks(s, incoming) || (Turns(s, incoming) && s.pressureLimited) || Starves(incoming)
  }

  function Process(a: Actor, incoming: TransportFeedback): (Actor, Trace)
    requires a.active.Some?
  {
    if incoming.terminal then Fail(a)
    else
      var s := a.active.value;
      var request := RequestsKeyFrame(s, incoming);
      (a.(active := Some(Noted(s, incoming)),
          feedback := Publish(a.feedback, s.generation, request, incoming.acknowledgedFrames, incoming.pressure)),
       [ReportSeen(incoming)] + if request then [Requested] else [])
  }

  /** The unit would not be of use to the receiver, or would only add to the congestion. */
  predicate Withheld(s: ActiveSender, u: AccessUnit) {
    || (s.pressureLimited && (s.statistics.acknowledgedFrames != 0 || !u.dependency.KeyFrame?))
    || (s.needsKeyFrame && u.dependency.Delta?)
  }

  function FateOf(s: ActiveSender, u: AccessUnit, outcome: SendOutcome): Fate {
    if u.generation != s.generation then Foreign
    else if Withheld(s, u) then Gated
    else if s.sender.None? || outcome.SendFailed? then Errored
    else if outcome.SendCongested? then Refused
    else Accepted
  }

  function Dropped(s: ActiveSender): ActiveSender {
    s.(statistics := s.statistics.(droppedFrames := Saturating(s.statistics.droppedFrames + 1)))
  }

  function Delivered(s: ActiveSender, u: AccessUnit): ActiveSender {
    var key := u.dependency.KeyFrame?;
    s.(statistics := s.statistics.(frames := Saturating(s.statistics.frames + 1),
                                   keyFrames := Saturating(s.statistics.keyFrames + if key then 1 else 0),
                                   encodedBytes := Saturating(s.statistics.encodedBytes + |u.data|)),
       needsKeyFrame := s.needsKeyFrame && !key)
  }

  function Forward(a: Actor, u: AccessUnit, outcome: SendOutcome): (Actor, Trace)
    requires a.active.Some?
  {
    var s := a.active.value;
    var fate := FateOf(s, u, outcome);
    match fate
    case Foreign => (a.(active := Some(Dropped(s))), [Forwarded(u, fate)])
    case Gated => (a.(active := Some(Dropped(s))), [Forwarded(u, fate)])
    case Errored => var (b, effects) := Fail(a); (b, [Forwarded(u, fate)] + effects)
    case Refused =>
      (a.(active := Some(Dropped(s).(pressureLimited := true, needsKeyFrame := true)),
          feedback := Publish(a.feedback, s.generation, true, s.statistics.acknowledgedFrames, None)),
       [Forwarded(u, fate), Requested])
    case Accepted => (a.(active := Some(Delivered(s, u))), [Forwarded(u, fate)])
  }

  /** The arms of the actor's `select!` that are polled. */
  predicate Enabled(a: Actor, e: Event) {
    a.active.Some? && if e.Unit?
        || e.SourceClosed? then a.active.value.state.Streaming? else a.active.value.feedbackOpen
  }

  function Take(a: Actor, e: Event): (Actor, Trace) {
    if !Enabled(a, e) then (a, [])
    else
      match e
      case Unit(u, outcome) => Forward(a, u, outcome)
      case Reported(incoming) => Process(a, incoming)
      case SourceClosed => Fail(a)
      case FeedbackClosed => Fail(a)
  }

  // ----- The actor -----

  /** The world the media components act on. */
  class World {
    ghost var trace: Trace

    constructor ()
      ensures trace == []
    {
      trace := [];
    }
  }

  class VideoSenderActor {
    const world: World
    var active: Option<ActiveSender>
    var completedGeneration: Option<Generation>
    var feedback: SenderFeedback

    ghost function View(): Actor
      reads this
    {
      Actor(active, completedGeneration, feedback)
    }

    constructor (world: World)
      ensures View() == NEW_ACTOR && this.world == world
    {
      this.world := world;
      active, completedGeneration, feedback := None, None, SenderFeedback(0, None, 0, 0, None, false);
    }

    method ConfigureActive(generation: Generation, sender: nat, audioAttached: bool)
        returns (r: Result<Common.Unit, Error>)
      modifies this, world
      ensures var (view, effects, result) := Configure(old(View()), generation, sender, audioAttached);
              View() == view && world.trace == old(world.trace) + effects && r == result
    {
      if audioAttached {
        world.trace := world.trace + [ShutDown(sender)];
        return Err(AudioAttached);
      }
      if active.Some? {
        world.trace := world.trace + [ShutDown(sender)];
        return Err(AlreadyActive);
      }
      if completedGeneration.Some? && generation <= completedGeneration.value {
        world.trace := world.trace + [ShutDown(sender)];
        return Err(NotNewer);
      }
      active := Some(ActiveSender(generation, State.Configured, Some(sender), true, 0, false, false, NO_STATISTICS));
      feedback := SenderFeedback(Saturating(feedback.revision + 1), Some(generation), 0, 0, None, false);
      world.trace := world.trace + [Effect.Configured(generation, sender)];
      return Ok(Common.Unit);
    }

    method TransitionActive(generation: Generation, transition: Transition) returns (r: Result<Common.Unit, Error>)
      modifies this
      ensures (View(), r) == Transit(old(View()), generation, transition)
    {
      if active.None? { return Err(NotActive); }
      if active.value.generation != generation { return Err(OtherGeneration); }
      if active.value.state != transition.Required() { return Err(WrongState); }
      active := Some(active.value.(state := transition.Desired()));
      return Ok(Common.Unit);
    }

    method StopActive(generation: Generation, shutdownOk: bool) returns (r: Result<Statistics, Error>)
      modifies this, world
      ensures var (view, effects, result) := Stop(old(View()), generation, shutdownOk);
              View() == view && world.trace == old(world.trace) + effects && r == result
    {
      if active.None? {
        r := if completedGeneration == Some(generation) then Ok(NO_STATISTICS) else Err(NotActive);
      } else if active.value.generation != generation {
        r := Err(OtherGeneration);
      } else {
        var current := active.value;
        active, r := None, Ok(current.statistics);
        if current.sender.Some? {
          world.trace := world.trace + [ShutDown(current.sender.value)];
          if !shutdownOk { r := Err(ShutdownFailed); }
        }
      }
      if r.Ok? { completedGeneration := Some(generation); }
    }

    method ShutdownActive(shutdownOk: bool) returns (r: Result<Common.Unit, Error>)
      modifies this, world
      ensures var (view, effects, result) := Shutdown(old(View()), shutdownOk);
              View() == view && world.trace == old(world.trace) + effects && r == result
    {
      r := Ok(Common.Unit);
      if active.Some? {
        var sender := active.value.sender;
        active := None;
        if sender.Some? {
          world.trace := world.trace + [ShutDown(sender.value)];
          if !shutdownOk { r := Err(ShutdownFailed); }
        }
      }
    }

    method FailActive()
      requires active.Some?
      modifies this, world
      ensures var (view, effects) := Fail(old(View()));
              View() == view && world.trace == old(world.trace) + effects
    {
      var current := active.value;
      var sender := current.sender;
      current := current.(state := Failed, feedbackOpen := false);
      if sender.Some? {
        current := current.(sender := None);
        world.trace := world.trace + [ShutDown(sender.value)];
      }
      active := Some(current);
      feedback := feedback.(revision := Saturating(feedback.revision + 1), generation := Some(current.generation),
          terminal := true);
    }

    method PublishFeedback(generation: Generation, request: bool, acknowledged: u64,
        pressure: Option<Feedback.Pressure>)
      modifies this`feedback, world
      ensures feedback == Publish(old(feedback), generation, request, acknowledged, pressure)
      ensures world.trace == old(world.trace) + if request then [Requested] else []
    {
      feedback := feedback.(revision := Saturating(feedback.revision + 1), generation := Some(generation),
                            keyFrameRequests := Saturating(feedback.keyFrameRequests + if request then 1 else 0),
                            acknowledgedFrames := acknowledged);
      if pressure.Some? { feedback := feedback.(pressure := pressure); }
      world.trace := world.trace + if request then [Requested] else [];
    }

    method ProcessTransportFeedback(incoming: TransportFeedback)
      requires active.Some?
      modifies this, world
      ensures var (view, effects) := Process(old(View()), incoming);
              View() == view && world.trace == old(world.trace) + effects
    {
      if incoming.terminal {
        FailActive();
        return;
      }
      var current := active.value;
      current := current.(statistics := current.statistics.(acknowledgedFrames := incoming.acknowledgedFrames,
                                                            acknowledgedAudioPackets :=
                                                                incoming.acknowledgedAudioPackets));
      var request := false;
      if incoming.keyFrameRequests > current.observedKeyFrameRequests {
        current := current.(observedKeyFrameRequests := incoming.keyFrameRequests, needsKeyFrame := true);
        request := true;
      }
      if incoming.pressure.Some? {
        var limited := incoming.pressure.value.QueueSaturated();
        if limited != current.pressureLimited {
          current := current.(pressureLimited := limited, needsKeyFrame := true);
          request := request || !limited;
        }
        if incoming.acknowledgedFrames == 0 && incoming.pressure.value.inFlightFrames != 0 {
          current := current.(needsKeyFrame := true);
          request := true;
        }
      }
      active := Some(current);
      world.trace := world.trace + [ReportSeen(incoming)];
      PublishFeedback(current.generation, request, incoming.acknowledgedFrames, incoming.pressure);
    }

    method ForwardAccessUnit(u: AccessUnit, outcome: SendOutcome)
      requires active.Some?
      modifies this, world
      ensures var (view, effects) := Forward(old(View()), u, outcome);
              View() == view && world.trace == old(world.trace) + effects
    {
      var current := active.value;
      var drops := current.statistics.(droppedFrames := Saturating(current.statistics.droppedFrames + 1));
      if u.generation != current.generation {
        active := Some(current.(statistics := drops));
        world.trace := world.trace + [Forwarded(u, Foreign)];
        return;
      }
      if (current.pressureLimited && (current.statistics.acknowledgedFrames != 0 || u.dependency != KeyFrame))
         || (current.needsKeyFrame && u.dependency == Delta)
      {
        active := Some(current.(statistics := drops));
        world.trace := world.trace + [Forwarded(u, Gated)];
        return;
      }
      if current.sender.None? || outcome.SendFailed? {
        world.trace := world.trace + [Forwarded(u, Errored)];
        FailActive();
        return;
      }
      if outcome.SendCongested? {
        active := Some(current.(statistics := drops, pressureLimited := true, needsKeyFrame := true));
        world.trace := world.trace + [Forwarded(u, Refused)];
        PublishFeedback(current.generation, true, current.statistics.acknowledgedFrames, None);
        return;
      }
      var key := u.dependency.KeyFrame?;
      current := current.(statistics := current.statistics.(
                            frames := Saturating(current.statistics.frames + 1),
                            keyFrames := Saturating(current.statistics.keyFrames + if key then 1 else 0),
                            encodedBytes := Saturating(current.statistics.encodedBytes + |u.data|)));
      if key { current := current.(needsKeyFrame := false); }
      active := Some(current);
      world.trace := world.trace + [Forwarded(u, Accepted)];
    }

    /** One turn of the actor's loop that is not a command; an arm that is not polled does nothing. */
    method Turn(e: Event)
      modifies this, world
      ensures var (view, effects) := Take(old(View()), e);
              View() == view && world.trace == old(world.trace) + effects
    {
      if active.None? { return; }
      match e {
        case Unit(u, outcome) => if active.value.state.Streaming? { ForwardAccessUnit(u, outcome); }
        case SourceClosed => if active.value.state.Streaming? { FailActive(); }
        case Reported(incoming) => if active.value.feedbackOpen { ProcessTransportFeedback(incoming); }
        case FeedbackClosed => if active.value.feedbackOpen { FailActive(); }
      }
    }
  }
}
