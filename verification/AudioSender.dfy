/** The actor that owns the negotiated Cast audio sender, when a generation has one. */
module AudioSender {
  import opened Common
  import opened MediaTrace
  import opened VideoSender

  datatype AudioStatistics = AudioStatistics(packets: u64, encodedBytes: u64, droppedPackets: u64)

  const NO_AUDIO := AudioStatistics(0, 0, 0)

  /** What has become of the audio senders of all negotiations, each named by the number of its negotiation. */
  datatype AudioEffect =
    | AudioOffered(sender: nat)
    | GraphAnswered(sender: nat, accepted: bool)
    | AudioShut(sender: nat)

  type AudioLedger = seq<AudioEffect>

  datatype ActiveAudio = ActiveAudio(
    generation: Generation, state: State, sender: Option<nat>, statistics: AudioStatistics)

  datatype AudioActor = AudioActor(active: Option<ActiveAudio>, completed: Option<Generation>, ledger: AudioLedger)

  const NEW_AUDIO_ACTOR := AudioActor(None, None, [])

  datatype AudioEvent = Packet(generation: Generation, bytes: nat, outcome: SendOutcome) | AudioSourceClosed

  function ReleaseAudio(sender: Option<nat>): AudioLedger {
    if sender.Some? then [AudioShut(sender.value)] else []
  }

  function ConfigureAudio(a: AudioActor, generation: Generation, sender: nat)
    : (AudioActor, Result<Common.Unit, Error>)
  {
    if a.active.Some? then (a.(ledger := a.ledger + [AudioShut(sender)]), Err(AlreadyActive))
    else if NotNewerThan(generation, a.completed) then (a.(ledger := a.ledger + [AudioShut(sender)]), Err(NotNewer))
    else (a.(active := Some(ActiveAudio(generation, State.Configured, Some(sender), NO_AUDIO))), Ok(Common.Unit))
  }

  function MatchingAudio(a: AudioActor, generation: Generation): Result<ActiveAudio, Error> {
    if a.active.None? then Err(NotActive)
    else if a.active.value.generation != generation then Err(OtherGeneration)
    else Ok(a.active.value)
  }

  function TransitAudio(a: AudioActor, generation: Generation, transition: Transition): (AudioActor,
      Result<Common.Unit, Error>) {
    match MatchingAudio(a, generation)
    case Err(error) => (a, Err(error))
    case Ok(active) =>
      if active.state != transition.Required() then (a, Err(WrongState))
      else (a.(active := Some(active.(state := transition.Desired()))), Ok(Common.Unit))
  }

  function AudioStatisticsOf(a: AudioActor, generation: Generation): Result<AudioStatistics, Error> {
    match MatchingAudio(a, generation)
    case Err(error) => Err(error)
    case Ok(active) => if active.state.Failed? then Err(WrongState) else Ok(active.statistics)
  }

  function StopAudio(a: AudioActor, generation: Generation, shutdownOk: bool)
    : (AudioActor, Result<AudioStatistics, Error>)
  {
    if a.active.None? then (a, if a.completed == Some(generation) then Ok(NO_AUDIO) else Err(NotActive))
    else if a.active.value.generation != generation then (a, Err(OtherGeneration))
    else
      var active := a.active.value;
      var released := a.(active := None, ledger := a.ledger + ReleaseAudio(active.sender));
      if active.sender.Some? && !shutdownOk then (released, Err(ShutdownFailed))
      else (released.(completed := Some(generation)), Ok(active.statistics))
  }

  function ShutdownAudio(a: AudioActor, shutdownOk: bool): (AudioActor, Result<Common.Unit, Error>) {
    if a.active.None? then (a, Ok(Common.Unit))
    else
      var sender := a.active.value.sender;
      (a.(active := None, ledger := a.ledger + ReleaseAudio(sender)),
       if sender.Some? && !shutdownOk then Err(ShutdownFailed) else Ok(Common.Unit))
  }

  function FailAudio(a: AudioActor): AudioActor
    requires a.active.Some?
  {
    var active := a.active.value;
    a.(active := Some(active.(state := Failed, sender := None)), ledger := a.ledger + ReleaseAudio(active.sender))
  }

  function PacketFate(s: ActiveAudio, generation: Generation, outcome: SendOutcome): Fate {
    if generation != s.generation then Foreign
    else if s.sender.None? || outcome.SendFailed? then Errored
    else if outcome.SendCongested? then Refused
    else Accepted
  }

  function ForwardPacket(a: AudioActor, generation: Generation, bytes: nat, outcome: SendOutcome): AudioActor
    requires a.active.Some?
  {
    var s := a.active.value;
    match PacketFate(s, generation, outcome)
    case Errored => FailAudio(a)
    case Accepted =>
      a.(active := Some(s.(statistics := s.statistics.(packets := Saturating(s.statistics.packets + 1),
                                                       encodedBytes := Saturating(s.statistics.encodedBytes + bytes)))))
    case _ =>
      a.(active := Some(s.(statistics := s.statistics.(droppedPackets := Saturating(s.statistics.droppedPackets + 1)))))
  }

  function TakeAudio(a: AudioActor, e: AudioEvent): AudioActor {
    if a.active.None? || !a.active.value.state.Streaming? then a
    else
      match e
      case Packet(generation, bytes, outcome) => ForwardPacket(a, generation, bytes, outcome)
      case AudioSourceClosed => FailAudio(a)
  }

  ghost function Tally(fates: seq<Fate>, p: Fate -> bool): nat {
    if fates == [] then 0 else Tally(fates[..|fates| - 1], p) + if p(fates[|fates| - 1]) then 1 else 0
  }

  predicate Sent(fate: Fate) { fate.Accepted? }

  predicate Lost(fate: Fate) { fate.Foreign? || fate.Refused? }

  lemma TallyAppend(fates: seq<Fate>, fate: Fate, p: Fate -> bool)
    ensures Tally(fates + [fate], p) == Tally(fates, p) + if p(fate) then 1 else 0
  {
    assert (fates + [fate])[..|fates|] == fates;
  }

  /**
   * Every packet of the generation is counted once, unless its forwarding failed; a failed generation has no sender.
   */
  ghost predicate Counted(a: AudioActor, fates: seq<Fate>) {
    a.active.Some? ==>
      && a.active.value.statistics.packets == Saturating(Tally(fates, Sent))
      && a.active.value.statistics.droppedPackets == Saturating(Tally(fates, Lost))
      && (a.active.value.sender.Some? <==> !a.active.value.state.Failed?)
  }

  lemma ForwardCounted(a: AudioActor, fates: seq<Fate>, generation: Generation, bytes: nat, outcome: SendOutcome)
    requires a.active.Some? && Counted(a, fates)
    ensures Counted(ForwardPacket(a, generation, bytes, outcome),
              fates + [PacketFate(a.active.value, generation, outcome)])
  {
    var fate := PacketFate(a.active.value, generation, outcome);
    TallyAppend(fates, fate, Sent);
    TallyAppend(fates, fate, Lost);
  }

  // ----- A stretch of packets -----

  /** The actor after a stretch of events. */
  ghost function Played(a: AudioActor, events: seq<AudioEvent>): AudioActor {
    if events == [] then a else TakeAudio(Played(a, events[..|events| - 1]), events[|events| - 1])
  }

  predicate Carries(generation: Generation, e: AudioEvent) {
    e.Packet? && e.generation == generation && e.outcome.SendAccepted?
  }

  /** The source ends, or the transport fails on a packet of the generation. */
  predicate Breaks(generation: Generation, e: AudioEvent) {
    e.AudioSourceClosed? || (e.generation == generation && e.outcome.SendFailed?)
  }

  ghost function Carried(generation: Generation, events: seq<AudioEvent>): (n: nat)
    ensures n <= |events|
  {
    if events == [] then 0
    else Carried(generation, events[..|events| - 1]) + if Carries(generation, events[|events| - 1]) then 1 else 0
  }

  ghost function CarriedBytes(generation: Generation, events: seq<AudioEvent>): nat {
    if events == [] then 0
    else
      var e := events[|events| - 1];
      CarriedBytes(generation, events[..|events| - 1]) + if Carries(generation, e) then e.bytes else 0
  }

  ghost predicate Plays(a: AudioActor, generation: Generation) {
    && a.active.Some? && a.active.value.generation == generation && a.active.value.state.Streaming?
    && a.active.value.sender.Some?
  }

  /**
   * Through any stretch that does not break it the generation counts every packet once: those of its own that the
   * transport accepts as sent, with their bytes, and all others as dropped.
   */
  lemma {:induction false} PacketsExactly(a: AudioActor, generation: Generation, events: seq<AudioEvent>)
    requires Plays(a, generation) && forall e :: e in events ==> !Breaks(generation, e)
    ensures var b, was := Played(a, events), a.active.value.statistics;
            && Plays(b, generation) && b.ledger == a.ledger && b.completed == a.completed
            && b.active.value.statistics ==
                 AudioStatistics(Saturating(was.packets + Carried(generation, events)),
                                 Saturating(was.encodedBytes + CarriedBytes(generation, events)),
                                 Saturating(was.droppedPackets + |events| - Carried(generation, events)))
  {
    if events == [] {
    } else {
      var n := |events| - 1;
      assert events[n] in events;
      PacketsExactly(a, generation, events[..n]);
    }
  }

  /** What breaks the generation shuts its sender down and leaves it failed, with its statistics. */
  lemma BreaksExactly(a: AudioActor, generation: Generation, e: AudioEvent)
    requires Plays(a, generation)
    ensures var b := TakeAudio(a, e);
            if Breaks(generation, e) then
              && b.active == Some(a.active.value.(state := Failed, sender := None))
              && b.ledger == a.ledger + [AudioShut(a.active.value.sender.value)]
            else Plays(b, generation) && b.ledger == a.ledger
  {
  }

  /** An actor that does not stream takes up nothing. */
  lemma IdleAudioIgnores(a: AudioActor, e: AudioEvent)
    requires a.active.None? || !a.active.value.state.Streaming?
    ensures TakeAudio(a, e) == a
  {
  }

  /** A generation is taken exactly when none is active and it is newer; otherwise its sender is shut down. */
  lemma ConfigureAudioTaken(a: AudioActor, generation: Generation, sender: nat)
    ensures var (b, r) := ConfigureAudio(a, generation, sender);
            && (r.Ok? <==> a.active.None? && (a.completed.Some? ==> generation > a.completed.value))
            && b == if r.Ok? then a.(active := Some(ActiveAudio(generation, State.Configured, Some(sender), NO_AUDIO)))
                    else a.(ledger := a.ledger + [AudioShut(sender)])
  {
  }

  /** Stopping gives up the generation and its sender; it is completed exactly when the sender has shut down well. */
  lemma StopAudioTaken(a: AudioActor, generation: Generation, shutdownOk: bool)
    requires a.active.Some? && a.active.value.generation == generation
    ensures var (b, r) := StopAudio(a, generation, shutdownOk);
            var sender := a.active.value.sender;
            && b.active.None? && (r.Ok? <==> sender.None? || shutdownOk)
            && b.completed == (if r.Ok? then Some(generation) else a.completed)
            && b.ledger == a.ledger + if sender.Some? then [AudioShut(sender.value)] else []
  {
  }

  class AudioSenderActor {
    var active: Option<ActiveAudio>
    var completedGeneration: Option<Generation>
    /** What became of the packets of the active generation. */
    ghost var fates: seq<Fate>
    ghost var ledger: AudioLedger

    ghost function View(): AudioActor
      reads this
    {
      AudioActor(active, completedGeneration, ledger)
    }

    ghost predicate Valid()
      reads this
    {
      Counted(View(), fates)
    }

    constructor ()
      ensures Valid() && View() == NEW_AUDIO_ACTOR
    {
      active, completedGeneration, fates, ledger := None, None, [], [];
    }

    method ConfigureActive(generation: Generation, sender: nat) returns (r: Result<Common.Unit, Error>)
      requires Valid()
      modifies this
      ensures Valid() && (View(), r) == ConfigureAudio(old(View()), generation, sender)
    {
      if active.Some? {
        ledger := ledger + [AudioShut(sender)];
        return Err(AlreadyActive);
      }
      if completedGeneration.Some? && generation <= completedGeneration.value {
        ledger := ledger + [AudioShut(sender)];
        return Err(NotNewer);
      }
      active, fates := Some(ActiveAudio(generation, State.Configured, Some(sender), NO_AUDIO)), [];
      return Ok(Common.Unit);
    }

    method TransitionActive(generation: Generation, transition: Transition) returns (r: Result<Common.Unit, Error>)
      requires Valid()
      modifies this
      ensures Valid() && (View(), r) == TransitAudio(old(View()), generation, transition)
    {
      if active.None? { return Err(NotActive); }
      if active.value.generation != generation { return Err(OtherGeneration); }
      if active.value.state != transition.Required() { return Err(WrongState); }
      active := Some(active.value.(state := transition.Desired()));
      return Ok(Common.Unit);
    }

    method StopActive(generation: Generation, shutdownOk: bool) returns (r: Result<AudioStatistics, Error>)
      requires Valid()
      modifies this
      ensures Valid() && (View(), r) == StopAudio(old(View()), generation, shutdownOk)
    {
      if active.None? {
        r := if completedGeneration == Some(generation) then Ok(NO_AUDIO) else Err(NotActive);
      } else if active.value.generation != generation {
        r := Err(OtherGeneration);
      } else {
        var current := active.value;
        active, ledger := None, ledger + ReleaseAudio(current.sender);
        r := if current.sender.Some? && !shutdownOk then Err(ShutdownFailed) else Ok(current.statistics);
      }
      if r.Ok? { completedGeneration := Some(generation); }
    }

    method ShutdownActive(shutdownOk: bool) returns (r: Result<Common.Unit, Error>)
      requires Valid()
      modifies this
      ensures Valid() && (View(), r) == ShutdownAudio(old(View()), shutdownOk)
    {
      r := Ok(Common.Unit);
      if active.Some? {
        var sender := active.value.sender;
        active, ledger := None, ledger + ReleaseAudio(sender);
        if sender.Some? && !shutdownOk { r := Err(ShutdownFailed); }
      }
    }

    method FailActive()
      requires Valid() && active.Some?
      modifies this
      ensures Valid() && View() == FailAudio(old(View())) && fates == old(fates)
    {
      ledger := ledger + ReleaseAudio(active.value.sender);
      active := Some(active.value.(state := Failed, sender := None));
    }

    method Forward(generation: Generation, bytes: nat, outcome: SendOutcome)
      requires Valid() && active.Some?
      modifies this
      ensures Valid() && View() == ForwardPacket(old(View()), generation, bytes, outcome)
      ensures fates == old(fates) + [PacketFate(old(active.value), generation, outcome)]
    {
      ForwardCounted(View(), fates, generation, bytes, outcome);
      var current := active.value;
      var statistics := current.statistics;
      fates := fates + [PacketFate(current, generation, outcome)];
      if generation != current.generation {
        statistics := statistics.(droppedPackets := Saturating(statistics.droppedPackets + 1));
      } else if current.sender.None? || outcome.SendFailed? {
        ledger := ledger + ReleaseAudio(current.sender);
        current := current.(state := Failed, sender := None);
      } else if outcome.SendCongested? {
        statistics := statistics.(droppedPackets := Saturating(statistics.droppedPackets + 1));
      } else {
        statistics := statistics.(packets := Saturating(statistics.packets + 1));
        statistics := statistics.(encodedBytes := Saturating(statistics.encodedBytes + bytes));
      }
      active := Some(current.(statistics := statistics));
    }

    method Turn(e: AudioEvent)
      requires Valid()
      modifies this
      ensures Valid() && View() == TakeAudio(old(View()), e)
    {
      if active.None? || !active.value.state.Streaming? { return; }
      match e {
        case Packet(generation, bytes, outcome) => Forward(generation, bytes, outcome);
        case AudioSourceClosed => FailActive();
      }
    }
  }
}
