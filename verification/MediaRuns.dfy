/** The media session over whole runs: any sequence of requests, port failures, frames and feedback. */
module MediaRuns {
  import opened Common
  import opened MediaTrace
  import opened VideoSender
  import opened AudioSender
  import opened FrameGate
  import opened VideoSenderInvariant
  import opened MediaLedger
  import opened MediaSession
  import opened MediaInvariant

  ghost predicate IsRun(states: seq<System>, ops: seq<Operation>) {
    |states| == |ops| + 1 && states[0] == NEW_SYSTEM && forall i :: 0 <= i < |ops| ==>
        states[i + 1] == Apply(states[i], ops[i])
  }

  lemma {:induction false} RunInvariant(states: seq<System>, ops: seq<Operation>, n: nat)
    requires IsRun(states, ops) && n < |states|
    ensures Invariant(states[n])
  {
    if n == 0 {
      InitiallyInvariant();
    } else {
      RunInvariant(states, ops, n - 1);
      ApplyKeeps(states[n - 1], ops[n - 1]);
    }
  }

  /** Every delta frame the transport accepts can be decoded from what it accepted before. */
  lemma StreamIsDecodable(states: seq<System>, ops: seq<Operation>, n: nat)
    requires IsRun(states, ops) && n < |states|
    ensures Decodable(states[n].trace)
  {
    RunInvariant(states, ops, n);
  }

  /**
   * Given the encoder's checks, the first frame the transport accepts in a generation is a key frame, in every run.
   * The generation is configured at position `c` of the trace, and its first accepted frame stands at position `k`.
   */
  lemma StreamStartsWithKeyFrame(states: seq<System>, ops: seq<Operation>, n: nat, c: nat, k: nat)
    requires IsRun(states, ops) && n < |states| && Validated(states[n].trace)
    requires FirstAccepted(states[n].trace, c, k)
    ensures var u := states[n].trace[k].accessUnit;
            u.dependency.KeyFrame? && |u.data| >= 10 && u.data[0] % 2 == 0 && u.data[3..6] == [0x9d, 0x01, 0x2a]
  {
    StreamIsDecodable(states, ops, n);
    StartsWithKeyFrame(states[n].trace, c, k);
  }

  /** Session and actors stay in step. */
  lemma Lockstep(states: seq<System>, ops: seq<Operation>, n: nat)
    requires IsRun(states, ops) && n < |states|
    ensures var s := states[n]; var x := s.session;
            && (x.active.Some? <==> x.state.Configured? || x.state.Streaming? || x.state.Suspended?)
            && (x.state.Prepared? ==> s.video.active.None? && s.audio.active.None?)
            && NoLater(s.video.completed, x.completed) && NoLater(s.audio.completed, x.completed)
            && (x.state.Streaming? || x.state.Suspended? ==>
                  x.mediaReady && x.graphReceived && x.senderReceived && x.transportActive
                      && (x.audioEnabled ==> x.audioReceived))
            && (s.video.active.Some? && s.video.active.value.state.Streaming? ==> x.state.Streaming?)
            && (s.audio.active.Some? && s.audio.active.value.state.Streaming? ==> x.state.Streaming?)
  {
    RunInvariant(states, ops, n);
  }

  /** No generation the session admits is turned away by an actor, whatever failed before. */
  lemma AdmittedNeverRejected(states: seq<System>, ops: seq<Operation>, n: nat, c: ConfigureCall)
    requires IsRun(states, ops) && n < |states|
    ensures var reply := ConfigureMedia(states[n], c).1; !(reply.Err? && reply.error.SenderFailed?)
  {
    RunInvariant(states, ops, n);
    ConfigureMediaKeeps(states[n], c);
  }

  /** Generations are handed over in order, and never after their StopMedia. */
  lemma NoStaleMedia(states: seq<System>, ops: seq<Operation>, n: nat)
    requires IsRun(states, ops) && n < |states|
    ensures Ordered(states[n].trace) && StopsHold(states[n].trace)
  {
    RunInvariant(states, ops, n);
  }

  /** An admitted StopMedia completes its generation and marks the trace, even when a teardown fails. */
  lemma StopCompletes(s: System, generation: u64, c: StopCall)
    requires generation != 0 && s.session.active == Some(generation) && Live(s.session.state)
    ensures var t := StopMedia(s, generation, c).0;
            && t.session.state.Prepared? && t.session.completed == Some(generation)
            && t.trace != [] && t.trace[|t.trace| - 1] == Effect.Stopped(generation)
  {
  }

  ghost predicate StoppedAt(s: System, generation: u64) {
    generation != 0 && s.session.state.Prepared? && s.session.completed == Some(generation)
  }

  /** Neither the admission of a newer generation nor the end of the session. */
  ghost predicate Leaves(s: System, op: Operation) {
    !op.ShutdownOp? && (op.ConfigureOp? ==> Refusal(s, op.configuration).Some?)
  }

  lemma StoppedStays(s: System, op: Operation, generation: u64)
    requires Invariant(s) && StoppedAt(s, generation) && Leaves(s, op)
    ensures Apply(s, op) == s
  {
  }

  /**
   * StopMedia may be repeated, with success and without effect, until a newer generation is admitted or the session
   * ends.
   */
  lemma {:induction false} StopIsIdempotent(states: seq<System>, ops: seq<Operation>, m: nat, n: nat, generation: u64,
      c: StopCall)
    requires IsRun(states, ops) && m <= n < |states| && StoppedAt(states[m], generation)
    requires forall i :: m <= i < n ==> Leaves(states[i], ops[i])
    ensures states[n] == states[m] && StopMedia(states[n], generation, c) == (states[n], DONE)
  {
    if m == n {
    } else {
      StopIsIdempotent(states, ops, m, n - 1, generation, c);
      RunInvariant(states, ops, n - 1);
      StoppedStays(states[n - 1], ops[n - 1], generation);
    }
  }

  /** No video sender is shut down twice, and none is left over once the session is Prepared again or Stopped. */
  lemma SendersShutDownOnce(states: seq<System>, ops: seq<Operation>, n: nat, sender: nat)
    requires IsRun(states, ops) && n < |states|
    ensures Shuts(states[n].trace, sender) <= 1
    ensures sender >= states[n].negotiations ==> Shuts(states[n].trace, sender) == 0
    ensures (states[n].session.state.Prepared? || states[n].session.state.Stopped?)
              && sender < states[n].negotiations ==>
              Shuts(states[n].trace, sender) == 1
  {
    RunInvariant(states, ops, n);
  }

  /** Every unit of the generation whose forwarding did not fail is counted once. */
  lemma UnitsCountedOnce(states: seq<System>, ops: seq<Operation>, n: nat)
    requires IsRun(states, ops) && n < |states| && states[n].video.active.Some?
    ensures var t, statistics := states[n].trace, states[n].video.active.value.statistics;
            && statistics.frames == Saturating(Since(t, IsAccepted))
            && statistics.droppedFrames == Saturating(Since(t, IsDropped))
            && statistics.keyFrames == Saturating(Since(t, IsKey))
            && statistics.encodedBytes == Saturating(SentBytes(t))
            && Since(t, IsAccepted) + Since(t, IsDropped) == Since(t, (e: Effect) => e.Forwarded? && !e.fate.Errored?)
  {
    RunInvariant(states, ops, n);
    CountedOnce(states[n].trace);
  }

  /** An actor that refuses deltas although the transport has room has asked for a key frame since it last got one. */
  lemma RefusalIsAnnounced(states: seq<System>, ops: seq<Operation>, n: nat)
    requires IsRun(states, ops) && n < |states| && states[n].video.active.Some?
    requires states[n].video.active.value.needsKeyFrame && !states[n].video.active.value.pressureLimited
    ensures var t := states[n].trace;
            exists j :: 0 <= j < |t| && t[j].Requested? && forall i :: j < i < |t| ==> !Anchor(t[i])
  {
    RunInvariant(states, ops, n);
    RequestVisible(states[n].trace);
  }

  /**
   * In every run a frame of the generation in force is handed to the transport if and only if it is a key frame and
   * there is no congestion or nothing has been acknowledged, or a delta with neither congestion nor a key frame owed.
   */
  lemma HandedExactly(states: seq<System>, ops: seq<Operation>, n: nat, k: nat)
    requires IsRun(states, ops) && n < |states| && k < |states[n].trace| && states[n].trace[k].Forwarded?
    ensures var before, e := states[n].trace[..k], states[n].trace[k];
            if GenerationAt(before) != Some(e.accessUnit.generation) then e.fate.Foreign?
            else Handed(e) <==>
                 match e.accessUnit.dependency
                 case KeyFrame => !Congested(before) || Acknowledged(before) == 0
                 case Delta => !Congested(before) && !Owed(before)
  {
    RunInvariant(states, ops, n);
    assert JudgedAt(states[n].trace, k);
  }

  /** In every state of a run a streaming actor records the frame it is given next, with the transport's answer. */
  lemma FramesRecorded(states: seq<System>, ops: seq<Operation>, n: nat, u: AccessUnit, outcome: SendOutcome)
    requires IsRun(states, ops) && n < |states| && states[n].video.active.Some?
    requires states[n].video.active.value.state.Streaming?
    ensures var t, after := states[n].trace, Apply(states[n], ActorOp(OfVideo(Event.Unit(u, outcome)))).trace;
            && |t| < |after| && after[..|t|] == t && after[|t|].Forwarded? && after[|t|].accessUnit == u
            && (Handed(after[|t|]) ==>
                  after[|t|].fate == match outcome case SendAccepted => Accepted case SendCongested => Refused
                                     case SendFailed => Errored)
  {
    RunInvariant(states, ops, n);
    UnitRecorded(states[n].video, u, outcome);
  }

  /** In every state of a run frames reach only a streaming actor, and reports only one that has not failed. */
  lemma OthersIgnoredInRuns(states: seq<System>, ops: seq<Operation>, n: nat, e: VideoSender.Event)
    requires IsRun(states, ops) && n < |states|
    requires var active := states[n].video.active;
             active.None? || if e.Unit? || e.SourceClosed? then !active.value.state.Streaming?
                             else active.value.state.Failed?
    ensures Apply(states[n], ActorOp(OfVideo(e))) == states[n]
  {
    RunInvariant(states, ops, n);
    OthersIgnored(states[n].video, e);
    assert states[n].trace + [] == states[n].trace;
  }

  /**
   * In every run a key frame is requested right after a refusal, a report that demands one and a report that ends the
   * congestion, and nowhere else.
   */
  lemma RequestedExactly(states: seq<System>, ops: seq<Operation>, n: nat, k: nat)
    requires IsRun(states, ops) && n < |states| && k < |states[n].trace|
    ensures var t := states[n].trace;
            t[k].Requested? <==>
              && k > 0
              && var before, e := t[..k - 1], t[k - 1];
                 || (e.Forwarded? && e.fate.Refused?)
                 || (e.ReportSeen? && (Demands(before, e.report) || Clears(before, e.report)))
  {
    RunInvariant(states, ops, n);
    assert AnsweredAt(states[n].trace, k);
  }

  /** In every run the actor publishes what the reports of its generation said. */
  lemma PublishedExactly(states: seq<System>, ops: seq<Operation>, n: nat)
    requires IsRun(states, ops) && n < |states| && states[n].video.active.Some?
    ensures var t, f := states[n].trace, states[n].video.feedback;
            && f.generation == Some(states[n].video.active.value.generation)
            && f.keyFrameRequests == Saturating(Since(t, IsRequest)) && f.pressure == LastPressure(t)
            && f.acknowledgedFrames == Acknowledged(t)
            && (f.terminal <==> states[n].video.active.value.state.Failed?)
  {
    RunInvariant(states, ops, n);
  }

  /** Within a generation no more key frames are forced than were requested. */
  lemma ForcedWithinRequested(states: seq<System>, ops: seq<Operation>, n: nat)
    requires IsRun(states, ops) && n < |states|
    ensures Since(states[n].trace, IsForce) <= Since(states[n].trace, IsRequest)
  {
    RunInvariant(states, ops, n);
  }

  // ----- Start -----

  lemma DriftGrows(s: System, events: seq<ActorEvent>)
    ensures s.trace <= Drift(s, events).trace
    decreases events
  {
    if events != [] { DriftGrows(Happen(s, events[0]), events[1..]); }
  }

  lemma {:induction false} NewOne(t: Trace, u: Trace, p: Effect -> bool)
    requires t <= u && Since(u, p) > Since(t, p)
    ensures exists i :: |t| <= i < |u| && p(u[i])
  {
    assert |t| == |u| ==> t == u;
    var n := |u| - 1;
    if !p(u[n]) {
      assert t <= u[..n];
      NewOne(t, u[..n], p);
      var i :| |t| <= i < n && p(u[..n][i]);
      assert p(u[i]);
    }
  }

  /** Something the transport accepted after the first `n` effects. */
  ghost predicate AcceptsSince(t: Trace, n: nat) { exists i :: n <= i < |t| && IsAccepted(t[i]) }

  /** A report after the first `n` effects that acknowledges more frames than the generation had seen by then. */
  ghost predicate AcknowledgesSince(t: Trace, n: nat)
    requires n <= |t|
  {
    exists i :: n <= i < |t| && t[i].ReportSeen? && t[i].report.acknowledgedFrames > Acknowledged(t[..n])
  }

  /** The statistics are those of the trace. */
  lemma Counted(s: System)
    requires Steady(s) && s.video.active.Some?
    ensures s.video.active.value.statistics.frames == Saturating(Since(s.trace, IsAccepted))
    ensures s.video.active.value.statistics.acknowledgedFrames == Acknowledged(s.trace)
  {
  }

  lemma ConfirmGrows(s: System, generation: Generation, c: BringUpCall, video: Statistics,
      audio: Option<AudioStatistics>)
    ensures Drift(s, c.frameWait).trace <= Confirm(s, generation, c, video, audio).0.trace
  {
    DriftGrows(Drift(s, c.frameWait), c.packetWait);
    var t := ConfirmDelivery(s, generation, c, video, audio).0;
    DriftGrows(t, c.ackWait);
    DriftGrows(Drift(t, c.ackWait), c.audioAckWait);
  }

  lemma GrownAccepts(t: Trace, a: Trace, u: Trace)
    requires t <= a <= u && Since(a, IsAccepted) > Since(t, IsAccepted)
    ensures AcceptsSince(u, |t|)
  {
    NewOne(t, a, IsAccepted);
    var i :| |t| <= i < |a| && IsAccepted(a[i]);
    assert u[i] == a[i];
  }

  lemma ConfirmDelivers(t: Trace, s: System, generation: Generation, c: BringUpCall, video: Statistics,
      audio: Option<AudioStatistics>)
    requires Steady(s) && Running(s) && t <= s.trace && video.frames == Saturating(Since(t, IsAccepted))
    ensures var (u, confirmed) := Confirm(s, generation, c, video, audio); confirmed ==> AcceptsSince(u.trace, |t|)
  {
    var a := Drift(s, c.frameWait);
    DriftRuns(s, c.frameWait);
    DriftGrows(s, c.frameWait);
    if VideoBeyond(a, generation, (x: Statistics) => x.frames, video.frames) {
      Counted(a);
      ConfirmGrows(s, generation, c, video, audio);
      GrownAccepts(t, a.trace, Confirm(s, generation, c, video, audio).0.trace);
    }
  }

  lemma GrownAcknowledges(t: Trace, a: Trace, u: Trace)
    requires t <= a <= u && Acknowledged(a) > Acknowledged(t)
    ensures AcknowledgesSince(u, |t|)
  {
    NewReport(t, a);
    var i :| |t| <= i < |a| && a[i].ReportSeen? && a[i].report.acknowledgedFrames > Acknowledged(t);
    assert u[i] == a[i] && u[..|t|] == t;
  }

  lemma ReceiptAcknowledges(t: Trace, s: System, generation: Generation, c: BringUpCall, video: Statistics,
      audio: Option<AudioStatistics>)
    requires Steady(s) && Running(s) && t <= s.trace && video.acknowledgedFrames == Acknowledged(t)
    ensures var (u, confirmed) := ConfirmReceipt(s, generation, c, video, audio);
            t <= u.trace && (confirmed ==> AcknowledgesSince(u.trace, |t|))
  {
    var a := Drift(s, c.ackWait);
    DriftRuns(s, c.ackWait);
    DriftGrows(s, c.ackWait);
    DriftGrows(a, c.audioAckWait);
    if VideoBeyond(a, generation, (x: Statistics) => x.acknowledgedFrames, video.acknowledgedFrames) {
      Counted(a);
      GrownAcknowledges(t, a.trace, ConfirmReceipt(s, generation, c, video, audio).0.trace);
    }
  }

  lemma ConfirmAcknowledges(t: Trace, s: System, generation: Generation, c: BringUpCall, video: Statistics,
      audio: Option<AudioStatistics>)
    requires Steady(s) && Running(s) && t <= s.trace && video.acknowledgedFrames == Acknowledged(t)
    ensures var (u, confirmed) := Confirm(s, generation, c, video, audio);
            confirmed ==> |t| <= |u.trace| && AcknowledgesSince(u.trace, |t|)
  {
    DeliveryRuns(s, generation, c, video, audio);
    DriftGrows(s, c.frameWait);
    DriftGrows(Drift(s, c.frameWait), c.packetWait);
    ReceiptAcknowledges(t, ConfirmDelivery(s, generation, c, video, audio).0, generation, c, video, audio);
  }

  lemma RaiseGrows(s: System, generation: Generation, transition: Transition, c: BringUpCall)
    ensures s.trace <= RaiseSenders(s, generation, transition, c).0.trace
  {
    var a := Drift(s, c.beforeTransition);
    DriftGrows(s, c.beforeTransition);
    var t := MoveVideo(a, generation, transition).0;
    var b := Drift(t, c.beforeAudioTransition);
    DriftGrows(t, c.beforeAudioTransition);
    var u := MoveAudio(b, generation, transition).0;
    DriftGrows(u, c.duringRollback);
  }

  lemma GraphConfirms(s: System, generation: Generation, c: BringUpCall, video: Statistics,
      audio: Option<AudioStatistics>)
    requires Steady(s) && Running(s) && RunGraph(s, generation, c, video, audio).1.Ok?
    ensures c.graphOk
    ensures var v := Drift(s, c.beforeGraph);
            var (u, confirmed) := Confirm(v, generation, c, video, audio);
            && Steady(v) && Running(v) && s.trace <= v.trace && confirmed && u.session == s.session
            && RunGraph(s, generation, c, video, audio).0 == u.(session := u.session.(state := SessionState.Streaming))
  {
    DriftRuns(s, c.beforeGraph);
    DriftGrows(s, c.beforeGraph);
    ConfirmRuns(Drift(s, c.beforeGraph), generation, c, video, audio);
  }

  /** A Start or Resume that succeeds ends with a confirmation of running senders. */
  lemma BringUpConfirms(s: System, generation: Generation, transition: Transition, c: BringUpCall)
      returns (v: System, audio: Option<AudioStatistics>)
    requires Begins(s, generation, transition) && BringUp(s, generation, transition, c).1.Ok?
    ensures Steady(v) && Running(v) && s.trace <= v.trace && StatisticsOf(s.video, generation).Ok? && c.graphOk
    ensures var (u, confirmed) := Confirm(v, generation, c, StatisticsOf(s.video, generation).value, audio);
            && confirmed && u.session == s.session
            && BringUp(s, generation, transition, c).0 == u.(session := u.session.(state := SessionState.Streaming))
  {
    var t := Drift(s, c.beforeAudioStatistics);
    DriftBegins(s, generation, transition, c.beforeAudioStatistics);
    DriftGrows(s, c.beforeAudioStatistics);
    var u := RaiseSenders(t, generation, transition, c).0;
    RaiseSendersKeeps(t, generation, transition, c);
    RaiseGrows(t, generation, transition, c);
    v := Drift(u, c.beforeGraph);
    audio := if s.session.audioEnabled then Some(AudioStatisticsOf(t.audio, generation).value) else None;
    GraphConfirms(u, generation, c, StatisticsOf(s.video, generation).value, audio);
  }

  /**
   * When Start or Resume succeeds, the transport has accepted an access unit in the meantime, and the receiver has
   * reported more acknowledged frames than it had before.
   */
  lemma BringUpDelivers(s: System, generation: Generation, transition: Transition, c: BringUpCall)
    requires Begins(s, generation, transition) && BringUp(s, generation, transition, c).1.Ok?
    ensures var t := BringUp(s, generation, transition, c).0;
            |s.trace| <= |t.trace| && AcceptsSince(t.trace, |s.trace|) && AcknowledgesSince(t.trace, |s.trace|)
  {
    var v, audio := BringUpConfirms(s, generation, transition, c);
    var video := StatisticsOf(s.video, generation).value;
    Counted(s);
    ConfirmDelivers(s.trace, v, generation, c, video, audio);
    ConfirmAcknowledges(s.trace, v, generation, c, video, audio);
  }
}
