/** What becomes of the controller's actions: which ports are asked, in what order, and what is answered. */
module FeedbackDelivery {
  import opened Common
  import opened MediaTrace
  import opened VideoSender
  import opened MediaSession
  import opened MediaInvariant
  import Feedback
  import VideoFeedback

  type Actions = seq<Feedback.Action>

  // ----- Requests to the ports -----

  predicate IsPortRequest(e: Effect) { e.Forced? || e.Adjusted? }

  /** The requests to graph and transport among the effects of a trace. */
  ghost function PortRequests(t: Trace): Trace {
    if t == [] then []
    else PortRequests(t[..|t| - 1]) + if IsPortRequest(t[|t| - 1]) then [t[|t| - 1]] else []
  }

  lemma {:induction false} PortRequestsConcat(t: Trace, effects: Trace)
    ensures PortRequests(t + effects) == PortRequests(t) + PortRequests(effects)
  {
    if effects == [] {
      assert t + effects == t;
    } else {
      var n := |effects| - 1;
      PortRequestsConcat(t, effects[..n]);
      assert (t + effects)[..|t + effects| - 1] == t + effects[..n];
    }
  }

  lemma {:induction false} NoPortRequests(effects: Trace)
    requires forall e :: e in effects ==> !IsPortRequest(e)
    ensures PortRequests(effects) == []
  {
    if effects == [] {
    } else {
      NoPortRequests(effects[..|effects| - 1]);
    }
  }

  /** The request an action stands for; giving up asks nothing of anyone. */
  function RequestFor(generation: Generation, action: Feedback.Action): Trace {
    match action
    case ForceKeyFrame => [Forced(generation)]
    case DisableAdaptivePlayoutDelay(_, _) => []
    case _ => [Adjusted(generation, action)]
  }

  function RequestsFor(generation: Generation, actions: Actions): Trace {
    if actions == [] then [] else RequestFor(generation, actions[0]) + RequestsFor(generation, actions[1..])
  }

  /** The port an action needs agrees. */
  predicate Agreed(action: Feedback.Action, c: FeedbackCall) {
    match action
    case ForceKeyFrame => c.keyFrameOk
    case SetBitrate(_) => c.bitrate.Some?
    case SetPlayoutDelay(_) => c.playoutOk
    case DisableAdaptivePlayoutDelay(_, _) => true
  }

  function PortError(action: Feedback.Action): SessionError {
    if action.SetPlayoutDelay? then TransportFailed else GraphFailed
  }

  // ----- The sender, meanwhile -----

  /** The generation is still the actor's, and its sender is gone exactly if it has failed. */
  predicate Holds(a: Actor, generation: Generation) {
    && a.active.Some? && a.active.value.generation == generation
    && (a.active.value.sender.None? <==> a.active.value.state.Failed?)
  }

  lemma TakeQuietly(a: Actor, e: Event, generation: Generation)
    requires Holds(a, generation)
    ensures var (b, effects) := Take(a, e);
            Holds(b, generation) && forall e :: e in effects ==> !IsPortRequest(e)
  {
  }

  lemma HappenQuietly(s: System, e: ActorEvent, generation: Generation)
    requires Holds(s.video, generation)
    ensures var t := Happen(s, e);
            && Holds(t.video, generation) && t.session == s.session && s.trace <= t.trace
            && PortRequests(t.trace) == PortRequests(s.trace)
  {
    if e.OfVideo? {
      var effects := Take(s.video, e.video).1;
      TakeQuietly(s.video, e.video, generation);
      NoPortRequests(effects);
      PortRequestsConcat(s.trace, effects);
    }
  }

  lemma {:induction false} DriftQuietly(s: System, events: seq<ActorEvent>, generation: Generation)
    requires Holds(s.video, generation)
    ensures var t := Drift(s, events);
            && Holds(t.video, generation) && t.session == s.session && s.trace <= t.trace
            && PortRequests(t.trace) == PortRequests(s.trace)
    decreases events
  {
    if events == [] {
    } else {
      HappenQuietly(s, events[0], generation);
      DriftQuietly(Happen(s, events[0]), events[1..], generation);
    }
  }

  // ----- The actions, in order -----

  /** The video sender failed before the request could reach it. */
  predicate Lost(a: Actor, action: Feedback.Action) {
    action.SetPlayoutDelay? && a.active.Some? && a.active.value.state.Failed?
  }

  ghost predicate Carried(s: System, t: System, reply: Reply, generation: Generation, action: Feedback.Action,
                          c: FeedbackCall)
  {
    && s.trace <= t.trace && Holds(t.video, generation)
    && PortRequests(t.trace) ==
         PortRequests(s.trace) + (if Lost(t.video, action) then [] else RequestFor(generation, action))
    && (reply == if Lost(t.video, action) || !Agreed(action, c) then Err(PortError(action)) else DONE)
    && t.session == if action.SetBitrate? && c.bitrate.Some? then s.session.(videoBitrate := c.bitrate.value)
                    else s.session
  }

  lemma CarryOutExactly(s: System, generation: Generation, action: Feedback.Action, c: FeedbackCall)
    requires Holds(s.video, generation)
    ensures var (t, reply) := CarryOut(s, generation, action, c); Carried(s, t, reply, generation, action, c)
  {
    var d := Drift(s, c.Before(action));
    DriftQuietly(s, c.Before(action), generation);
    var t := CarryOut(s, generation, action, c).0;
    PortRequestsConcat(d.trace, RequestFor(generation, action));
    assert d.trace + [] == d.trace;
  }

  /** The ports have agreed to the first `k` actions, and the bitrate is what the graph has answered. */
  ghost predicate AgreedUpTo(s: System, t: System, actions: Actions, c: FeedbackCall, k: nat) {
    && k <= |actions| && (forall i :: 0 <= i < k ==> Agreed(actions[i], c))
    && s.trace <= t.trace
    && t.session == (if c.bitrate.Some? && exists i :: 0 <= i < k && actions[i].SetBitrate?
                     then s.session.(videoBitrate := c.bitrate.value) else s.session)
  }

  /** The ports have been asked for these actions and no others. */
  ghost predicate Asked(s: System, t: System, generation: Generation, actions: Actions) {
    PortRequests(t.trace) == PortRequests(s.trace) + RequestsFor(generation, actions)
  }

  /** The first `k` actions are done, and the next, if there is one, has failed. */
  ghost predicate DoneUpTo(s: System, t: System, reply: Reply, generation: Generation, actions: Actions,
                           c: FeedbackCall, k: nat)
  {
    && AgreedUpTo(s, t, actions, c, k)
    && if k == |actions| then reply == DONE && Asked(s, t, generation, actions)
       else
         && reply == Err(PortError(actions[k]))
         && if Lost(t.video, actions[k]) then Asked(s, t, generation, actions[..k])
            else !Agreed(actions[k], c) && Asked(s, t, generation, actions[..k + 1])
  }

  lemma AgreedFirst(s: System, t: System, u: System, generation: Generation, actions: Actions, c: FeedbackCall, k: nat)
    requires actions != [] && Carried(s, t, DONE, generation, actions[0], c)
    requires AgreedUpTo(t, u, actions[1..], c, k)
    ensures AgreedUpTo(s, u, actions, c, k + 1)
  {
    var rest := actions[1..];
    assert forall i :: 0 < i < |actions| ==> actions[i] == rest[i - 1];
    assert forall i :: 0 <= i < |rest| ==> rest[i] == actions[i + 1];
    assert (exists i :: 0 <= i < k + 1 && actions[i].SetBitrate?) <==>
           actions[0].SetBitrate? || exists i :: 0 <= i < k && rest[i].SetBitrate?;
  }

  lemma AskedFirst(s: System, t: System, u: System, generation: Generation, action: Feedback.Action, rest: Actions)
    requires PortRequests(t.trace) == PortRequests(s.trace) + RequestFor(generation, action)
    requires Asked(t, u, generation, rest)
    ensures Asked(s, u, generation, [action] + rest)
  {
    assert ([action] + rest)[1..] == rest;
  }

  lemma DoneFirst(s: System, t: System, u: System, reply: Reply, generation: Generation, actions: Actions,
                  c: FeedbackCall, k: nat)
    requires actions != [] && Carried(s, t, DONE, generation, actions[0], c)
    requires DoneUpTo(t, u, reply, generation, actions[1..], c, k)
    ensures DoneUpTo(s, u, reply, generation, actions, c, k + 1)
  {
    var first, rest := actions[0], actions[1..];
    AgreedFirst(s, t, u, generation, actions, c, k);
    if k == |rest| {
      AskedFirst(s, t, u, generation, first, rest);
      assert [first] + rest == actions;
    } else if Lost(u.video, rest[k]) {
      AskedFirst(s, t, u, generation, first, rest[..k]);
      assert [first] + rest[..k] == actions[..k + 1];
    } else {
      AskedFirst(s, t, u, generation, first, rest[..k + 1]);
      assert [first] + rest[..k + 1] == actions[..k + 2];
    }
  }

  lemma {:induction false} CarryOutAllExactly(s: System, generation: Generation, actions: Actions, c: FeedbackCall)
      returns (k: nat)
    requires Holds(s.video, generation)
    ensures var (t, reply) := CarryOutAll(s, generation, actions, c); DoneUpTo(s, t, reply, generation, actions, c, k)
    decreases actions
  {
    if actions == [] {
      k := 0;
    } else {
      var (t, reply) := CarryOut(s, generation, actions[0], c);
      CarryOutExactly(s, generation, actions[0], c);
      if reply.Err? {
        k := 0;
        assert actions[..1][1..] == [] && actions[..0] == [];
      } else {
        var rest := CarryOutAllExactly(t, generation, actions[1..], c);
        var (u, answer) := CarryOutAll(t, generation, actions[1..], c);
        DoneFirst(s, t, u, answer, generation, actions, c, rest);
        k := rest + 1;
      }
    }
  }

  lemma AllDone(s: System, t: System, reply: Reply, generation: Generation, actions: Actions, c: FeedbackCall, k: nat)
    requires DoneUpTo(s, t, reply, generation, actions, c, k)
    requires c.keyFrameOk && c.bitrate.Some? && c.playoutOk
    requires t.video.active.Some? && !t.video.active.value.state.Failed?
    ensures reply == DONE && PortRequests(t.trace[|s.trace|..]) == RequestsFor(generation, actions)
    ensures t.session == if exists i :: 0 <= i < |actions| && actions[i].SetBitrate?
                         then s.session.(videoBitrate := c.bitrate.value) else s.session
  {
    var added, before, asked := t.trace[|s.trace|..], PortRequests(s.trace), RequestsFor(generation, actions);
    assert t.trace == s.trace + added;
    PortRequestsConcat(s.trace, added);
    assert PortRequests(added) == (before + asked)[|before|..] == asked;
  }

  // ----- Feedback -----

  /** What the controller makes of the feedback that was published last. */
  ghost function Decision(s: System, now: Instant): (Controller, Actions)
    requires s.session.controller.Some?
  {
    var controller, seen := s.session.controller.value, s.video.feedback;
    var snapshot := VideoFeedback.Snapshot(seen.keyFrameRequests, seen.pressure);
    VideoFeedback.ObservedBounded(controller, snapshot, now);
    VideoFeedback.Observed(controller, snapshot, now)
  }

  /** The active generation is ready, and the feedback published last is its own. */
  predicate Concerned(s: System) {
    s.session.active.Some? && s.session.active == s.video.feedback.generation && s.session.mediaReady
  }

  lemma ConcernedFeedback(s: System, c: FeedbackCall) returns (k: nat)
    requires Invariant(s) && Concerned(s)
    ensures s.video.active.Some? && s.session.controller.Some?
    ensures s.video.active.value.state.Failed? ==> HandleFeedback(s, c) == (s, Err(Terminal))
    ensures !s.video.active.value.state.Failed? ==>
              var (t, reply) := HandleFeedback(s, c);
              var (controller, actions) := Decision(s, c.now);
              DoneUpTo(s.(session := s.session.(controller := Some(controller))), t, reply, s.session.active.value,
                       actions, c, k)
  {
    k := 0;
    if !s.video.active.value.state.Failed? {
      var (controller, actions) := Decision(s, c.now);
      k := CarryOutAllExactly(s.(session := s.session.(controller := Some(controller))), s.session.active.value,
                              actions, c);
    }
  }

  /**
   * Feedback that is not the active generation's has no effect, and a failed sender ends in `Terminal`. Otherwise the
   * feedback is judged once: the requests that reach the ports are those of the controller's actions, in order, up to
   * the first that fails; the answer is that port's, and the graph's answer to a bitrate is taken over.
   */
  ghost predicate Reacts(s: System, c: FeedbackCall, t: System, reply: Reply) {
    if !Concerned(s) then t == s && reply == DONE
    else if s.video.active.Some? && s.video.active.value.state.Failed? then t == s && reply == Err(Terminal)
    else
      && s.session.controller.Some?
      && var (controller, actions) := Decision(s, c.now);
         exists k :: DoneUpTo(s.(session := s.session.(controller := Some(controller))), t, reply,
                              s.session.active.value, actions, c, k)
  }

  lemma FeedbackExactly(s: System, c: FeedbackCall)
    requires Invariant(s)
    ensures var (t, reply) := HandleFeedback(s, c); Reacts(s, c, t, reply)
  {
    if Concerned(s) {
      var k := ConcernedFeedback(s, c);
    }
  }

  /** If every port agrees and the sender lasts, the ports are asked exactly for the controller's actions. */
  lemma FeedbackDelivered(s: System, c: FeedbackCall)
    requires Invariant(s) && Concerned(s) && c.keyFrameOk && c.bitrate.Some? && c.playoutOk
    requires s.video.active.Some? && !s.video.active.value.state.Failed? && s.session.controller.Some?
    requires var t := HandleFeedback(s, c).0; t.video.active.Some? && !t.video.active.value.state.Failed?
    ensures var (t, reply) := HandleFeedback(s, c);
            var (controller, actions) := Decision(s, c.now);
            && reply == DONE && s.trace <= t.trace
            && PortRequests(t.trace[|s.trace|..]) == RequestsFor(s.session.active.value, actions)
            && t.session.controller == Some(controller)
            && t.session.videoBitrate == if exists i :: 0 <= i < |actions| && actions[i].SetBitrate?
                                         then c.bitrate.value else s.session.videoBitrate
  {
    var k := ConcernedFeedback(s, c);
    var (t, reply) := HandleFeedback(s, c);
    var (controller, actions) := Decision(s, c.now);
    AllDone(s.(session := s.session.(controller := Some(controller))), t, reply, s.session.active.value, actions, c, k);
  }
}
