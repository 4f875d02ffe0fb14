/** What every turn of the video sender actor keeps, whatever frames, feedback and commands it is given. */
module VideoSenderInvariant {
  import opened Common
  import opened MediaTrace
  import opened VideoSender
  import opened FrameGate

  predicate IsRequest(e: Effect) { e.Requested? }

  /** A gap in the accepted stream keeps deltas out until the next key frame, and a key frame has been asked for. */
  ghost predicate Gates(s: ActiveSender, t: Trace) {
    && (s.state.Failed? <==> s.sender.None?) && (s.feedbackOpen <==> !s.state.Failed?)
    && (Broken(t) ==> s.state.Failed? || s.needsKeyFrame || s.pressureLimited)
    && (s.needsKeyFrame && !s.pressureLimited ==> RequestedSinceKey(t))
  }

  /** The statistics count every forwarded unit of the generation once, and the published requests too. */
  ghost predicate Counts(s: ActiveSender, f: SenderFeedback, t: Trace) {
    && s.statistics.frames == Saturating(Since(t, IsAccepted))
    && s.statistics.droppedFrames == Saturating(Since(t, IsDropped))
    && f.keyFrameRequests == Saturating(Since(t, IsRequest))
    && f.generation == Some(s.generation)
  }

  ghost predicate Solid(a: Actor, t: Trace) {
    Decodable(t) && (a.active.Some? ==> Gates(a.active.value, t) && Counts(a.active.value, a.feedback, t))
  }

  ghost predicate Sound(a: Actor, t: Trace) { Solid(a, t) && Exact(a, t) }

  lemma Appended(t: Trace, e: Effect)
    requires IsDelta(e) ==> !Broken(t)
    ensures Decodable(t) ==> Decodable(t + [e])
    ensures Broken(t + [e]) == if Anchor(e) then false else if Continues(e) then Broken(t) else true
    ensures RequestedSinceKey(t + [e]) == if e.Requested? then true else if Anchor(e) then false
              else RequestedSinceKey(t)
    ensures !e.Configured? ==> Since(t + [e], IsAccepted) == Since(t, IsAccepted) + if IsAccepted(e) then 1 else 0
    ensures !e.Configured? ==> Since(t + [e], IsDropped) == Since(t, IsDropped) + if IsDropped(e) then 1 else 0
    ensures !e.Configured? ==> Since(t + [e], IsRequest) == Since(t, IsRequest) + if e.Requested? then 1 else 0
    ensures e.Configured? ==> Since(t + [e], IsAccepted) == Since(t + [e], IsDropped) == Since(t + [e], IsRequest) == 0
  {
    if Decodable(t) { DecodableAppend(t, e); }
    LastAppend(t, e);
    SinceAppend(t, e, IsAccepted);
    SinceAppend(t, e, IsDropped);
    SinceAppend(t, e, IsRequest);
  }

  /** Effects the actor's state says nothing about. */
  predicate Neutral(e: Effect) { e.Negotiated? || e.ShutDown? || e.Forced? || e.Adjusted? || e.Stopped? }

  lemma NeutralKeeps(a: Actor, t: Trace, e: Effect)
    requires Sound(a, t) && Neutral(e)
    ensures Sound(a, t + [e])
  {
    Appended(t, e);
    SilentExact(a, t, e);
  }

  lemma ReleaseKeeps(a: Actor, t: Trace, sender: Option<nat>)
    requires Sound(a, t)
    ensures Sound(a, t + Release(sender))
  {
    if sender.Some? { NeutralKeeps(a, t, ShutDown(sender.value)); } else { assert t + [] == t; }
  }

  lemma ConfigureKeeps(a: Actor, t: Trace, generation: Generation, sender: nat, audioAttached: bool)
    requires Sound(a, t)
    ensures var (b, effects, _) := Configure(a, generation, sender, audioAttached); Sound(b, t + effects)
  {
    Appended(t, ShutDown(sender));
    Appended(t, Effect.Configured(generation, sender));
    ConfigureExact(a, t, generation, sender, audioAttached);
  }

  lemma TransitKeeps(a: Actor, t: Trace, generation: Generation, transition: Transition)
    requires Sound(a, t)
    ensures Sound(Transit(a, generation, transition).0, t)
  {
  }

  lemma StopKeeps(a: Actor, t: Trace, generation: Generation, shutdownOk: bool)
    requires Sound(a, t)
    ensures var (b, effects, _) := Stop(a, generation, shutdownOk); Sound(b, t + effects)
  {
    assert t + [] == t;
    if a.active.Some? { ReleaseKeeps(a, t, a.active.value.sender); }
  }

  lemma ShutdownKeeps(a: Actor, t: Trace, shutdownOk: bool)
    requires Sound(a, t)
    ensures var (b, effects, _) := Shutdown(a, shutdownOk); Sound(b, t + effects)
  {
    assert t + [] == t;
    if a.active.Some? { ReleaseKeeps(a, t, a.active.value.sender); }
  }

  /** The state a failed sender is left in does not depend on the gate. */
  lemma FailKeeps(a: Actor, t: Trace)
    requires a.active.Some? && Decodable(t) && Counts(a.active.value, a.feedback, t)
    requires a.active.value.needsKeyFrame && !a.active.value.pressureLimited ==> RequestedSinceKey(t)
    ensures var (b, effects) := Fail(a); Solid(b, t + effects)
  {
    assert t + [] == t;
    var sender := a.active.value.sender;
    if sender.Some? { Appended(t, ShutDown(sender.value)); }
  }

  lemma RefusedKeeps(a: Actor, t: Trace, u: AccessUnit, outcome: SendOutcome)
    requires Solid(a, t) && a.active.Some? && FateOf(a.active.value, u, outcome).Refused?
    ensures var (b, effects) := Forward(a, u, outcome); Solid(b, t + effects)
  {
    var e := Forwarded(u, Refused);
    Appended(t, e);
    Appended(t + [e], Requested);
    assert t + [e, Requested] == t + [e] + [Requested];
  }

  lemma ErroredKeeps(a: Actor, t: Trace, u: AccessUnit, outcome: SendOutcome)
    requires Solid(a, t) && a.active.Some? && FateOf(a.active.value, u, outcome).Errored?
    ensures var (b, effects) := Forward(a, u, outcome); Solid(b, t + effects)
  {
    var e := Forwarded(u, Errored);
    Appended(t, e);
    FailKeeps(a, t + [e]);
    assert t + ([e] + Fail(a).1) == t + [e] + Fail(a).1;
  }

  lemma ForwardKeeps(a: Actor, t: Trace, u: AccessUnit, outcome: SendOutcome)
    requires Solid(a, t) && a.active.Some? && a.active.value.state.Streaming?
    ensures var (b, effects) := Forward(a, u, outcome); Solid(b, t + effects)
  {
    var fate := FateOf(a.active.value, u, outcome);
    if fate.Refused? {
      RefusedKeeps(a, t, u, outcome);
    } else if fate.Errored? {
      ErroredKeeps(a, t, u, outcome);
    } else {
      Appended(t, Forwarded(u, fate));
    }
  }

  lemma ProcessKeeps(a: Actor, t: Trace, incoming: TransportFeedback)
    requires Solid(a, t) && a.active.Some?
    requires a.active.value.feedbackOpen
    ensures var (b, effects) := Process(a, incoming); Solid(b, t + effects)
  {
    if incoming.terminal {
      FailKeeps(a, t);
    } else {
      var e, effects := ReportSeen(incoming), Process(a, incoming).1;
      Appended(t, e);
      Appended(t + [e], Requested);
      assert t + effects == if effects == [e] then t + [e] else t + [e] + [Requested];
    }
  }

  /** Every turn of the actor keeps the stream decodable, its gate closed over gaps, and its counters exact. */
  lemma TakeKeeps(a: Actor, t: Trace, e: Event)
    requires Sound(a, t)
    ensures var (b, effects) := Take(a, e); Sound(b, t + effects)
  {
    assert t + [] == t;
    if Enabled(a, e) {
      match e {
        case Unit(u, outcome) => ForwardKeeps(a, t, u, outcome);
        case Reported(incoming) => ProcessKeeps(a, t, incoming);
        case SourceClosed => FailKeeps(a, t);
        case FeedbackClosed => FailKeeps(a, t);
      }
    }
    TakeExact(a, t, e);
  }

  /** A unit whose forwarding did not fail is counted once, as a frame or as a dropped one. */
  lemma {:induction false} CountedOnce(t: Trace)
    ensures Since(t, IsAccepted) + Since(t, IsDropped) == Since(t, (e: Effect) => e.Forwarded? && !e.fate.Errored?)
  {
    var p := (e: Effect) => e.Forwarded? && !e.fate.Errored?;
    if t != [] && !t[|t| - 1].Configured? {
      var n := |t| - 1;
      CountedOnce(t[..n]);
      assert Since(t, p) == Since(t[..n], p) + if p(t[n]) then 1 else 0;
    }
  }
}
