/**
 * What the trace of the media components says about ownership, staleness and key-frame requests, and who keeps it so.
 */
module MediaLedger {
  import opened Common
  import opened MediaTrace
  import opened VideoSender
  import opened VideoSenderInvariant

  // ----- Ownership -----

  /** How often a sender has been shut down. */
  ghost function Shuts(t: Trace, sender: nat): nat {
    if t == [] then 0 else Shuts(t[..|t| - 1], sender) + if t[|t| - 1] == ShutDown(sender) then 1 else 0
  }

  lemma {:induction false} ShutsConcat(t: Trace, effects: Trace, sender: nat)
    ensures Shuts(t + effects, sender) == Shuts(t, sender) + Shuts(effects, sender)
  {
    if effects == [] {
      assert t + effects == t;
    } else {
      var n := |effects| - 1;
      ShutsConcat(t, effects[..n], sender);
      assert (t + effects)[..|t + effects| - 1] == t + effects[..n];
    }
  }

  /** Every sender negotiated so far has been shut down exactly once, but for the one still in use. */
  ghost predicate Linear(t: Trace, negotiations: nat, live: Option<nat>) {
    && (live.Some? ==> live.value < negotiations)
    && forall sender: nat :: Shuts(t, sender) == if sender < negotiations && live != Some(sender) then 1 else 0
  }

  lemma {:induction false} NoShuts(effects: Trace, sender: nat)
    requires forall e :: e in effects ==> !e.ShutDown?
    ensures Shuts(effects, sender) == 0
  {
    if effects == [] {
    } else {
      NoShuts(effects[..|effects| - 1], sender);
    }
  }

  lemma LinearQuiet(t: Trace, effects: Trace, negotiations: nat, live: Option<nat>)
    requires Linear(t, negotiations, live) && forall e :: e in effects ==> !e.ShutDown?
    ensures Linear(t + effects, negotiations, live)
  {
    forall sender: nat ensures Shuts(t + effects, sender) == Shuts(t, sender) {
      ShutsConcat(t, effects, sender);
      NoShuts(effects, sender);
    }
  }

  lemma LinearNegotiated(t: Trace, negotiations: nat)
    requires Linear(t, negotiations, None)
    ensures Linear(t + [Negotiated(negotiations)], negotiations + 1, Some(negotiations))
  {
    forall sender: nat ensures Shuts(t + [Negotiated(negotiations)], sender) == Shuts(t, sender) {
      ShutsConcat(t, [Negotiated(negotiations)], sender);
      NoShuts([Negotiated(negotiations)], sender);
    }
  }

  lemma LinearShut(t: Trace, negotiations: nat, sender: nat)
    requires Linear(t, negotiations, Some(sender))
    ensures Linear(t + [ShutDown(sender)], negotiations, None)
  {
    var u := t + [ShutDown(sender)];
    assert u[..|t|] == t;
    assert forall other: nat :: Shuts(u, other) == Shuts(t, other) + if other == sender then 1 else 0;
  }

  lemma LinearRelease(t: Trace, negotiations: nat, live: Option<nat>)
    requires Linear(t, negotiations, live)
    ensures Linear(t + Release(live), negotiations, None)
  {
    if live.Some? { LinearShut(t, negotiations, live.value); } else { assert t + [] == t; }
  }

  function SenderOf(a: Actor): Option<nat> {
    if a.active.Some? then a.active.value.sender else None
  }

  lemma ForwardOwns(a: Actor, u: AccessUnit, outcome: SendOutcome, t: Trace, negotiations: nat)
    requires a.active.Some? && Linear(t, negotiations, SenderOf(a))
    ensures var (b, effects) := Forward(a, u, outcome); Linear(t + effects, negotiations, SenderOf(b))
  {
    var (b, effects) := Forward(a, u, outcome);
    var first := [Forwarded(u, FateOf(a.active.value, u, outcome))];
    if first[0].fate.Errored? {
      LinearQuiet(t, first, negotiations, SenderOf(a));
      LinearRelease(t + first, negotiations, SenderOf(a));
      assert t + effects == t + first + Release(SenderOf(a));
    } else {
      LinearQuiet(t, effects, negotiations, SenderOf(a));
    }
  }

  /** An actor's event shuts down the sender it drops, and no other. */
  lemma TakeOwns(a: Actor, e: Event, t: Trace, negotiations: nat)
    requires Linear(t, negotiations, SenderOf(a))
    ensures var (b, effects) := Take(a, e); Linear(t + effects, negotiations, SenderOf(b))
  {
    if !Enabled(a, e) {
      assert t + [] == t;
    } else if e.Unit? {
      ForwardOwns(a, e.accessUnit, e.outcome, t, negotiations);
    } else if e.Reported? && !e.incoming.terminal {
      LinearQuiet(t, Take(a, e).1, negotiations, SenderOf(a));
    } else {
      LinearRelease(t, negotiations, SenderOf(a));
    }
  }

  // ----- Staleness -----

  ghost predicate Ordered(t: Trace) {
    forall i, j :: 0 <= i < j < |t| && Handed(t[i]) && Handed(t[j]) ==>
        t[i].accessUnit.generation <= t[j].accessUnit.generation
  }

  /** Nothing of a stopped generation, nor of one before it, is handed over after the stop. */
  ghost predicate StopsHold(t: Trace) {
    forall i, j :: 0 <= i < j < |t| && t[i].Stopped? && Handed(t[j]) ==> t[j].accessUnit.generation > t[i].generation
  }

  ghost predicate WithinLatest(t: Trace, active: Option<Generation>, completed: Option<Generation>) {
    && (active.Some? ==> !NotNewerThan(active.value, completed))
    && (forall i :: 0 <= i < |t| && Handed(t[i]) ==>
          || (active.Some? && t[i].accessUnit.generation <= active.value)
          || (completed.Some? && t[i].accessUnit.generation <= completed.value))
    && (forall i :: 0 <= i < |t| && t[i].Stopped? ==> completed.Some? && t[i].generation <= completed.value)
  }

  /** A closed session hands over nothing any more. */
  ghost predicate Fresh(t: Trace, active: Option<Generation>, completed: Option<Generation>, closed: bool) {
    Ordered(t) && StopsHold(t) && if closed then active.None? else WithinLatest(t, active, completed)
  }

  /** Whatever is handed over belongs to the generation in force. */
  ghost predicate Current(effects: Trace, active: Option<Generation>) {
    forall e :: e in effects ==> !e.Stopped? && (Handed(e) ==> active == Some(e.accessUnit.generation))
  }

  lemma FreshAppend(t: Trace, effects: Trace, active: Option<Generation>, completed: Option<Generation>, closed: bool)
    requires Fresh(t, active, completed, closed) && Current(effects, active)
    ensures Fresh(t + effects, active, completed, closed)
  {
    var u := t + effects;
    forall j | |t| <= j < |u| ensures !u[j].Stopped? && (Handed(u[j]) ==> active == Some(u[j].accessUnit.generation)) {
      assert u[j] in effects;
    }
  }

  lemma FreshStopped(t: Trace, generation: Generation, completed: Option<Generation>)
    requires Fresh(t, Some(generation), completed, false)
    ensures Fresh(t + [Effect.Stopped(generation)], None, Some(generation), false)
  {
  }

  lemma FreshAdmitted(t: Trace, generation: Generation, completed: Option<Generation>)
    requires Fresh(t, None, completed, false) && !NotNewerThan(generation, completed)
    ensures Fresh(t, Some(generation), completed, false)
  {
  }

  lemma TakeCurrent(a: Actor, e: Event)
    ensures Current(Take(a, e).1, if a.active.Some? then Some(a.active.value.generation) else None)
  {
  }

  // ----- Key-frame requests -----

  predicate IsForce(e: Effect) { e.Forced? }

  /** No key frame is forced that was not asked for. */
  ghost predicate Asked(t: Trace) { Since(t, IsForce) <= Since(t, IsRequest) }

  ghost predicate Unforced(effects: Trace) { forall e :: e in effects ==> !e.Configured? && !e.Forced? }

  lemma {:induction false} UnforcedAppend(t: Trace, effects: Trace)
    requires Unforced(effects)
    ensures Since(t + effects, IsForce) == Since(t, IsForce) && Since(t + effects, IsRequest) >= Since(t, IsRequest)
  {
    if effects == [] {
      assert t + effects == t;
    } else {
      var n := |effects| - 1;
      UnforcedAppend(t, effects[..n]);
      assert effects[n] in effects && t + effects == t + effects[..n] + [effects[n]];
      SinceAppend(t + effects[..n], effects[n], IsForce);
      SinceAppend(t + effects[..n], effects[n], IsRequest);
    }
  }

  lemma TakeUnforced(a: Actor, e: Event)
    ensures Unforced(Take(a, e).1)
    ensures Take(a, e).0.feedback.keyFrameRequests >= a.feedback.keyFrameRequests
  {
  }
}
