/**
 * The frame gate as the trace shows it: what the transport has reported and refused since the generation was configured
 * decides which frames are handed over and when a key frame is requested.
 */
module FrameGate {
  import opened Common
  import opened MediaTrace
  import opened VideoSender
  import Feedback

  // ----- What the trace says -----

  predicate IsRefused(e: Effect) { e.Forwarded? && e.fate.Refused? }

  /** The transport holds as much as it accepts to hold. */
  predicate Saturated(p: Feedback.Pressure) { p.maxAcceptableInFlight != 0 && p.inFlight >= p.maxAcceptableInFlight }

  ghost function GenerationAt(t: Trace): Option<Generation> {
    if t == [] then None
    else if t[|t| - 1].Configured? then Some(t[|t| - 1].generation)
    else GenerationAt(t[..|t| - 1])
  }

  /** The last word on the transport's queue, a report or a refusal, says that it is full. */
  ghost predicate Congested(t: Trace) {
    if t == [] then false
    else
      var e := t[|t| - 1];
      if e.Configured? then false
      else if IsRefused(e) then true
      else if e.ReportSeen? && e.report.pressure.Some? then Saturated(e.report.pressure.value)
      else Congested(t[..|t| - 1])
  }

  ghost function Acknowledged(t: Trace): nat {
    if t == [] || t[|t| - 1].Configured? then 0
    else if t[|t| - 1].ReportSeen? then t[|t| - 1].report.acknowledgedFrames
    else Acknowledged(t[..|t| - 1])
  }

  ghost function AcknowledgedAudio(t: Trace): nat {
    if t == [] || t[|t| - 1].Configured? then 0
    else if t[|t| - 1].ReportSeen? then t[|t| - 1].report.acknowledgedAudioPackets
    else AcknowledgedAudio(t[..|t| - 1])
  }

  /** The most key-frame requests the receiver has reported. */
  ghost function Wanted(t: Trace): nat {
    if t == [] || t[|t| - 1].Configured? then 0
    else if t[|t| - 1].ReportSeen? then Max(Wanted(t[..|t| - 1]), t[|t| - 1].report.keyFrameRequests)
    else Wanted(t[..|t| - 1])
  }

  ghost function LastPressure(t: Trace): Option<Feedback.Pressure> {
    if t == [] || t[|t| - 1].Configured? then None
    else if t[|t| - 1].ReportSeen? && t[|t| - 1].report.pressure.Some? then t[|t| - 1].report.pressure
    else LastPressure(t[..|t| - 1])
  }

  /** The receiver wants more key frames than before, or has not seen one although frames are under way. */
  ghost predicate Demands(t: Trace, r: TransportFeedback) {
    || r.keyFrameRequests > Wanted(t)
    || (r.pressure.Some? && r.acknowledgedFrames == 0 && r.pressure.value.inFlightFrames != 0)
  }

  /** Congestion sets in. */
  ghost predicate Clogs(t: Trace, r: TransportFeedback) {
    r.pressure.Some? && Saturated(r.pressure.value) && !Congested(t)
  }

  /** Congestion goes away. */
  ghost predicate Clears(t: Trace, r: TransportFeedback) {
    r.pressure.Some? && !Saturated(r.pressure.value) && Congested(t)
  }

  /** A key frame is owed: after a refusal, a demand or a turn of the congestion, until one is accepted. */
  ghost predicate Owed(t: Trace) {
    if t == [] then false
    else
      var e, before := t[|t| - 1], t[..|t| - 1];
      if Anchor(e) then false
      else if IsRefused(e) then true
      else if e.ReportSeen? then
        Demands(before, e.report) || Clogs(before, e.report) || Clears(before, e.report) || Owed(before)
      else Owed(before)
  }

  /** The frame may be handed over. */
  ghost predicate Passes(t: Trace, dependency: Dependency) {
    match dependency
    case KeyFrame => !Congested(t) || Acknowledged(t) == 0
    case Delta => !Congested(t) && !Owed(t)
  }

  /** A frame is foreign exactly when it is of another generation; any other is handed over exactly when it may be. */
  ghost predicate Judged(t: Trace, e: Effect) {
    e.Forwarded? ==>
      && (e.fate.Foreign? <==> GenerationAt(t) != Some(e.accessUnit.generation))
      && (!e.fate.Foreign? ==> (Handed(e) <==> Passes(t, e.accessUnit.dependency)))
  }

  ghost predicate JudgedAt(t: Trace, k: nat) { k < |t| && Judged(t[..k], t[k]) }

  ghost predicate AllJudged(t: Trace) { forall k: nat {:trigger JudgedAt(t, k)} :: k < |t| ==> JudgedAt(t, k) }

  /** This calls for a key frame at once: one could pass, or is needed whatever the congestion. */
  ghost predicate Calls(t: Trace, e: Effect) {
    IsRefused(e) || (e.ReportSeen? && (Demands(t, e.report) || Clears(t, e.report)))
  }

  ghost predicate CalledAt(t: Trace, k: int) { 0 <= k < |t| && Calls(t[..k], t[k]) }

  ghost predicate AnsweredAt(t: Trace, k: nat) { k < |t| && (t[k].Requested? <==> CalledAt(t, k - 1)) }

  /** A key frame is requested right after the effects that call for one, and nowhere else. */
  ghost predicate AllAnswered(t: Trace) {
    (forall k: nat {:trigger AnsweredAt(t, k)} :: k < |t| ==> AnsweredAt(t, k)) && !CalledAt(t, |t| - 1)
  }

  ghost function SentBytes(t: Trace): nat {
    if t == [] || t[|t| - 1].Configured? then 0
    else SentBytes(t[..|t| - 1]) + if IsAccepted(t[|t| - 1]) then |t[|t| - 1].accessUnit.data| else 0
  }

  // ----- What the actor remembers of it -----

  ghost predicate Remembers(s: ActiveSender, t: Trace) {
    && GenerationAt(t) == Some(s.generation)
    && s.pressureLimited == Congested(t) && s.needsKeyFrame == Owed(t) && s.observedKeyFrameRequests == Wanted(t)
    && s.statistics.acknowledgedFrames == Acknowledged(t)
    && s.statistics.acknowledgedAudioPackets == AcknowledgedAudio(t)
    && s.statistics.keyFrames == Saturating(Since(t, IsKey)) && s.statistics.encodedBytes == Saturating(SentBytes(t))
  }

  ghost predicate Publishes(s: ActiveSender, f: SenderFeedback, t: Trace) {
    && f.acknowledgedFrames == Acknowledged(t) && f.pressure == LastPressure(t)
    && f.terminal == s.state.Failed?
  }

  ghost predicate Exact(a: Actor, t: Trace) {
    && AllJudged(t) && AllAnswered(t)
    && (a.active.Some? ==> Remembers(a.active.value, t) && Publishes(a.active.value, a.feedback, t))
  }

  // ----- One more effect -----

  lemma Read(t: Trace, e: Effect)
    ensures var u := t + [e];
            && GenerationAt(u) == (if e.Configured? then Some(e.generation) else GenerationAt(t))
            && Congested(u) == (if e.Configured? then false else if IsRefused(e) then true
                 else if e.ReportSeen? && e.report.pressure.Some? then Saturated(e.report.pressure.value)
                 else Congested(t))
            && Acknowledged(u) == (if e.Configured? then 0 else if e.ReportSeen? then e.report.acknowledgedFrames
                 else Acknowledged(t))
            && AcknowledgedAudio(u) == (if e.Configured? then 0
                 else if e.ReportSeen? then e.report.acknowledgedAudioPackets else AcknowledgedAudio(t))
            && Wanted(u) == (if e.Configured? then 0
                 else if e.ReportSeen? then Max(Wanted(t), e.report.keyFrameRequests) else Wanted(t))
            && LastPressure(u) == (if e.Configured? then None
                 else if e.ReportSeen? && e.report.pressure.Some? then e.report.pressure else LastPressure(t))
            && Owed(u) == (if Anchor(e) then false else if IsRefused(e) then true
                 else if e.ReportSeen? && (Demands(t, e.report) || Clogs(t, e.report) || Clears(t, e.report)) then true
                 else Owed(t))
            && SentBytes(u) == (if e.Configured? then 0
                 else SentBytes(t) + if IsAccepted(e) then |e.accessUnit.data| else 0)
            && Since(u, IsKey) == (if e.Configured? then 0 else Since(t, IsKey) + if IsKey(e) then 1 else 0)
  {
    assert (t + [e])[..|t|] == t;
    SinceAppend(t, e, IsKey);
  }

  lemma JudgedAppend(t: Trace, e: Effect)
    requires AllJudged(t) && Judged(t, e)
    ensures AllJudged(t + [e])
  {
    var u := t + [e];
    forall k: nat | k < |u| ensures JudgedAt(u, k) {
      assert u[..k] == if k < |t| then t[..k] else t;
      if k < |t| { assert JudgedAt(t, k); }
    }
  }

  lemma CalledAppend(t: Trace, e: Effect, k: int)
    ensures k < |t| ==> CalledAt(t + [e], k) == CalledAt(t, k)
    ensures CalledAt(t + [e], |t|) == Calls(t, e)
  {
    var u := t + [e];
    assert u[..|t|] == t;
    if 0 <= k < |t| { assert u[..k] == t[..k]; }
  }

  lemma AnsweredAppend(t: Trace, e: Effect)
    requires AllAnswered(t) && !e.Requested? && !Calls(t, e)
    ensures AllAnswered(t + [e])
  {
    var u := t + [e];
    forall k: nat | k < |u| ensures AnsweredAt(u, k) {
      CalledAppend(t, e, k - 1);
      if k < |t| { assert AnsweredAt(t, k); }
    }
    CalledAppend(t, e, 0);
  }

  lemma AnsweredRequest(t: Trace, e: Effect)
    requires AllAnswered(t) && !e.Requested? && Calls(t, e)
    ensures AllAnswered(t + [e] + [Requested])
  {
    var v, u := t + [e], t + [e] + [Requested];
    forall k: nat | k < |u| ensures AnsweredAt(u, k) {
      CalledAppend(t, e, k - 1);
      CalledAppend(v, Requested, k - 1);
      if k < |t| { assert AnsweredAt(t, k); }
    }
    CalledAppend(v, Requested, 0);
  }

  /** Effects that say nothing about the transport. */
  predicate Silent(e: Effect) { !e.Configured? && !e.Forwarded? && !e.ReportSeen? && !e.Requested? }

  lemma SilentExact(a: Actor, t: Trace, e: Effect)
    requires Exact(a, t) && Silent(e)
    ensures Exact(a, t + [e])
  {
    Read(t, e);
    JudgedAppend(t, e);
    AnsweredAppend(t, e);
  }

  lemma ConfigureExact(a: Actor, t: Trace, generation: Generation, sender: nat, audioAttached: bool)
    requires Exact(a, t)
    ensures var (b, effects, _) := Configure(a, generation, sender, audioAttached); Exact(b, t + effects)
  {
    SilentExact(a, t, ShutDown(sender));
    var e := Effect.Configured(generation, sender);
    Read(t, e);
    JudgedAppend(t, e);
    AnsweredAppend(t, e);
  }

  /** A sender that fails, seen without its release. */
  lemma FailExact(a: Actor, t: Trace)
    requires a.active.Some? && AllJudged(t) && AllAnswered(t) && Remembers(a.active.value, t)
    requires a.feedback.acknowledgedFrames == Acknowledged(t) && a.feedback.pressure == LastPressure(t)
    ensures var (b, effects) := Fail(a); Exact(b, t + effects)
  {
    var b := Fail(a).0;
    assert Exact(b, t);
    var sender := a.active.value.sender;
    if sender.Some? { SilentExact(b, t, ShutDown(sender.value)); } else { assert t + [] == t; }
  }

  /** A request changes nothing that is read off the trace. */
  lemma RequestExact(a: Actor, t: Trace, e: Effect)
    requires AllAnswered(t) && !e.Requested? && Calls(t, e)
    requires AllJudged(t + [e]) && a.active.Some? && Remembers(a.active.value, t + [e])
    requires Publishes(a.active.value, a.feedback, t + [e])
    ensures Exact(a, t + [e, Requested])
  {
    var v := t + [e];
    assert t + [e, Requested] == v + [Requested];
    AnsweredRequest(t, e);
    Read(v, Requested);
    JudgedAppend(v, Requested);
  }

  lemma RefusedExact(a: Actor, t: Trace, u: AccessUnit, outcome: SendOutcome)
    requires Exact(a, t) && a.active.Some? && FateOf(a.active.value, u, outcome).Refused?
    ensures var (b, effects) := Forward(a, u, outcome); Exact(b, t + effects)
  {
    var e := Forwarded(u, Refused);
    Read(t, e);
    JudgedAppend(t, e);
    RequestExact(Forward(a, u, outcome).0, t, e);
  }

  lemma ErroredExact(a: Actor, t: Trace, u: AccessUnit, outcome: SendOutcome)
    requires Exact(a, t) && a.active.Some? && a.active.value.state.Streaming? && a.active.value.sender.Some?
    requires FateOf(a.active.value, u, outcome).Errored?
    ensures var (b, effects) := Forward(a, u, outcome); Exact(b, t + effects)
  {
    var e := Forwarded(u, Errored);
    Read(t, e);
    JudgedAppend(t, e);
    AnsweredAppend(t, e);
    FailExact(a, t + [e]);
    assert t + ([e] + Fail(a).1) == t + [e] + Fail(a).1;
  }

  lemma ForwardExact(a: Actor, t: Trace, u: AccessUnit, outcome: SendOutcome)
    requires Exact(a, t) && a.active.Some? && a.active.value.state.Streaming? && a.active.value.sender.Some?
    ensures var (b, effects) := Forward(a, u, outcome); Exact(b, t + effects)
  {
    var fate := FateOf(a.active.value, u, outcome);
    if fate.Refused? {
      RefusedExact(a, t, u, outcome);
    } else if fate.Errored? {
      ErroredExact(a, t, u, outcome);
    } else {
      var e := Forwarded(u, fate);
      Read(t, e);
      JudgedAppend(t, e);
      AnsweredAppend(t, e);
    }
  }

  lemma NotedRemembers(s: ActiveSender, t: Trace, incoming: TransportFeedback)
    requires Remembers(s, t)
    ensures Remembers(Noted(s, incoming), t + [ReportSeen(incoming)])
    ensures RequestsKeyFrame(s, incoming) == Calls(t, ReportSeen(incoming))
  {
    Read(t, ReportSeen(incoming));
  }

  lemma ProcessExact(a: Actor, t: Trace, incoming: TransportFeedback)
    requires Exact(a, t) && a.active.Some? && !a.active.value.state.Failed? && !incoming.terminal
    ensures var (b, effects) := Process(a, incoming); Exact(b, t + effects)
  {
    var b, e := Process(a, incoming).0, ReportSeen(incoming);
    Read(t, e);
    NotedRemembers(a.active.value, t, incoming);
    assert Publishes(b.active.value, b.feedback, t + [e]);
    JudgedAppend(t, e);
    if Calls(t, e) {
      assert Process(a, incoming).1 == [e, Requested];
      RequestExact(b, t, e);
    } else {
      assert Process(a, incoming).1 == [e];
      AnsweredAppend(t, e);
    }
  }

  lemma TakeExact(a: Actor, t: Trace, event: Event)
    requires Exact(a, t) && (a.active.Some? ==> (a.active.value.state.Failed? <==> a.active.value.sender.None?))
    requires a.active.Some? ==> (a.active.value.feedbackOpen <==> !a.active.value.state.Failed?)
    ensures var (b, effects) := Take(a, event); Exact(b, t + effects)
  {
    if !Enabled(a, event) {
      assert t + [] == t;
    } else if event.Unit? {
      ForwardExact(a, t, event.accessUnit, event.outcome);
    } else if event.Reported? && !event.incoming.terminal {
      ProcessExact(a, t, event.incoming);
    } else {
      FailExact(a, t);
    }
  }

  // ----- Every event leaves its mark -----

  /** A unit that a streaming actor takes up is recorded, and one it hands over with the transport's answer. */
  lemma UnitRecorded(a: Actor, u: AccessUnit, outcome: SendOutcome)
    requires a.active.Some? && a.active.value.state.Streaming? && a.active.value.sender.Some?
    ensures var effects := Take(a, Event.Unit(u, outcome)).1;
            && effects != [] && effects[0].Forwarded? && effects[0].accessUnit == u
            && (Handed(effects[0]) ==>
                  effects[0].fate == match outcome case SendAccepted => Accepted case SendCongested => Refused
                                     case SendFailed => Errored)
  {
  }

  /** Frames are taken up only while the generation streams, and reports only until it fails. */
  lemma OthersIgnored(a: Actor, e: Event)
    requires a.active.Some? ==> (a.active.value.feedbackOpen <==> !a.active.value.state.Failed?)
    requires a.active.None? || if e.Unit? || e.SourceClosed? then !a.active.value.state.Streaming?
                               else a.active.value.state.Failed?
    ensures Take(a, e) == (a, [])
  {
  }

  // ----- Commands -----

  /** A generation is taken, with fresh counters, exactly when none is active, it is newer and has no audio. */
  lemma ConfigureTaken(a: Actor, generation: Generation, sender: nat, audioAttached: bool)
    ensures var (b, effects, r) := Configure(a, generation, sender, audioAttached);
            && (r.Ok? <==> !audioAttached && a.active.None? && (a.completed.Some? ==> generation > a.completed.value))
            && (r.Ok? ==>
                  && b.active.Some? && b.active.value.generation == generation && b.active.value.state.Configured?
                  && b.active.value.sender == Some(sender) && b.active.value.statistics == NO_STATISTICS
                  && b.completed == a.completed && effects == [Effect.Configured(generation, sender)])
            && (r.Err? ==> b == a && effects == [ShutDown(sender)])
  {
  }

  /** A transition moves only the state, and only of the matching generation in the state before. */
  lemma TransitTaken(a: Actor, generation: Generation, transition: Transition)
    ensures var (b, r) := Transit(a, generation, transition);
            var (from, to) := match transition case Start => (State.Configured, State.Streaming)
                              case Suspend => (State.Streaming, State.Suspended)
                              case Resume => (State.Suspended, State.Streaming);
            && (r.Ok? <==> a.active.Some? && a.active.value.generation == generation && a.active.value.state == from)
            && b == if r.Ok? then a.(active := Some(a.active.value.(state := to))) else a
  {
  }

  /** Stopping gives up the generation and its sender; it is completed exactly when the sender has shut down well. */
  lemma StopTaken(a: Actor, generation: Generation, shutdownOk: bool)
    requires a.active.Some? && a.active.value.generation == generation
    ensures var (b, effects, r) := Stop(a, generation, shutdownOk);
            var sender := a.active.value.sender;
            && b.active.None? && b.feedback == a.feedback
            && (r.Ok? <==> sender.None? || shutdownOk) && (r.Ok? ==> r.value == a.active.value.statistics)
            && b.completed == (if r.Ok? then Some(generation) else a.completed)
            && effects == if sender.Some? then [ShutDown(sender.value)] else []
  {
  }

  /** A generation that is not active is not stopped; asking for one that is completed does no harm. */
  lemma StopRefused(a: Actor, generation: Generation, shutdownOk: bool)
    requires a.active.Some? ==> a.active.value.generation != generation
    ensures var (b, effects, r) := Stop(a, generation, shutdownOk);
            b == a && effects == [] && (r.Ok? <==> a.active.None? && a.completed == Some(generation))
  {
  }

  lemma ReportRecorded(a: Actor, incoming: TransportFeedback)
    requires a.active.Some? && a.active.value.feedbackOpen && !incoming.terminal
    ensures var effects := Take(a, Reported(incoming)).1; effects != [] && effects[0] == ReportSeen(incoming)
  {
  }

  /** Where acknowledgements have grown a report says so. */
  lemma {:induction false} NewReport(t: Trace, u: Trace)
    requires t <= u && Acknowledged(u) > Acknowledged(t)
    ensures exists i :: |t| <= i < |u| && u[i].ReportSeen? && u[i].report.acknowledgedFrames > Acknowledged(t)
  {
    assert |t| == |u| ==> t == u;
    var n := |u| - 1;
    if !u[n].ReportSeen? {
      assert t <= u[..n];
      NewReport(t, u[..n]);
      var i :| |t| <= i < n && u[..n][i].ReportSeen? && u[..n][i].report.acknowledgedFrames > Acknowledged(t);
      assert u[i] == u[..n][i];
    }
  }
}
