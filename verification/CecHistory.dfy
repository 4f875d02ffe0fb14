/** The CEC client against its own history: what has happened so far determines the answer to every call. */
module CecHistory {
  import opened Common
  import opened CecTransport
  import opened CecRuns

  // ----- What the history says -----

  /** The binding in force: the last one, unless it has been dissolved. */
  ghost function InForce(trace: Trace): (r: Option<Effect>)
    ensures r.Some? ==> r.value.Bound?
  {
    if trace == [] || trace[|trace| - 1].Unbound? then None
    else if trace[|trace| - 1].Bound? then Some(trace[|trace| - 1])
    else InForce(trace[..|trace| - 1])
  }

  /** The last switch was to online, and neither a suspension nor another binding has come since. */
  ghost predicate IsOnline(trace: Trace) {
    if trace == [] then false
    else
      var e := trace[|trace| - 1];
      if e.Switched? then e.online
      else if e.Bound? || e.Suspended? || e.Unbound? then false
      else IsOnline(trace[..|trace| - 1])
  }

  /** A transmit has been accepted and nothing has happened since. */
  ghost predicate Waits(trace: Trace) { trace != [] && trace[|trace| - 1].Accepted? }

  ghost predicate OfBinding(bound: Effect, e: TransmitEvent)
    requires bound.Bound?
  {
    && e.transportId == bound.transportId && e.transportGeneration == bound.transportGeneration
    && e.outputIndex == bound.outputIndex
  }

  // ----- What it calls for -----

  const REFUSED: (Trace, Outcome) := ([], Refused)

  const IGNORED: (Trace, Outcome) := ([], Done)

  /** An event is refused unless it is the binding's own and well formed, and ignored when it comes too late. */
  ghost function TransmitAnswer(connector: u32, trace: Trace, e: TransmitEvent): (Trace, Outcome) {
    var bound := InForce(trace);
    if e.connectorId != connector || bound.None? then REFUSED
    else if !IsOnline(trace) then IGNORED
    else if !OfBinding(bound.value, e) || e.stateGeneration == 0 then REFUSED
    else if !InOrder(trace, |trace|, e.stateGeneration) then IGNORED
    else if e.cookie == 0 || e.transportGeneration == 0 || Waits(trace) then REFUSED
    else ([Accepted(e.stateGeneration, Pending(e.transportGeneration, e.cookie))], Done)
  }

  ghost function Answer(connector: u32, trace: Trace, call: Call): (Trace, Outcome) {
    match call
    case Bind(b, callOk) =>
      if InForce(trace).None? && callOk
      then ([Bound(b.stateGeneration, b.transportId, b.transportGeneration, b.outputIndex)], Done) else REFUSED
    case SetState(online, callOk) =>
      if InForce(trace).None? then REFUSED
      else if IsOnline(trace) == online then IGNORED
      else if callOk && (online || !Waits(trace)) then ([Switched(online)], Done)
      else REFUSED
    case Suspend => if InForce(trace).Some? then ([Suspended], Done) else REFUSED
    case Transmit(e) => TransmitAnswer(connector, trace, e)
    case Complete(e, callOk) =>
      if callOk && Waits(trace)
         && trace[|trace| - 1].pending.transportGeneration == e.transportGeneration
         && trace[|trace| - 1].pending.cookie == e.cookie
      then ([Completed(trace[|trace| - 1].pending)], Done) else REFUSED
    case Unbind(callOk) =>
      if callOk && InForce(trace).Some? && !IsOnline(trace) && !Waits(trace) then ([Unbound], Done) else REFUSED
  }

  // ----- The tracker remembers what it needs of the history -----

  ghost predicate Mirrors(t: Tracker, trace: Trace) {
    match t.binding
    case None => InForce(trace).None?
    case Some(b) =>
      && InForce(trace).Some? && b.online == IsOnline(trace)
      && InForce(trace).value.transportId == b.transportId
      && InForce(trace).value.transportGeneration == b.transportGeneration
      && InForce(trace).value.outputIndex == b.outputIndex
  }

  lemma MirrorsNext(connector: u32, t: Tracker, trace: Trace, call: Call)
    requires Invariant(t, trace) && Mirrors(t, trace)
    ensures var (u, effects, _) := Apply(connector, t, call); Mirrors(u, trace + effects)
  {
    var effects := Apply(connector, t, call).1;
    if effects == [] {
      assert trace + effects == trace;
    } else {
      assert effects == [effects[0]];
      assert (trace + effects)[..|trace|] == trace;
    }
  }

  lemma {:induction false} RunMirrors(connector: u32, trackers: seq<Tracker>, traces: seq<Trace>, calls: seq<Call>,
      n: nat)
    requires IsRun(connector, trackers, traces, calls) && n <= |calls|
    ensures Mirrors(trackers[n], traces[n])
  {
    if n == 0 {
    } else {
      RunMirrors(connector, trackers, traces, calls, n - 1);
      RunInvariant(connector, trackers, traces, calls, n - 1);
      MirrorsNext(connector, trackers[n - 1], traces[n - 1], calls[n - 1]);
    }
  }

  /** What the tracker takes for too old is what is out of order with the history. */
  lemma TooOldExactly(t: Tracker, trace: Trace, e: TransmitEvent)
    requires Invariant(t, trace) && t.binding.Some? && t.binding.value.online && e.stateGeneration > 0
    ensures TooOld(t, e) <==> !InOrder(trace, |trace|, e.stateGeneration)
  {
    if !TooOld(t, e) {
      AdmittedInOrder(t, trace, e);
    } else {
      var i: nat :| DatedAt(t, trace, i);
      assert SameBindingSpan(trace, i, |trace|);
    }
  }

  lemma TransmitAnswered(connector: u32, t: Tracker, trace: Trace, e: TransmitEvent)
    requires Invariant(t, trace) && Mirrors(t, trace)
    ensures var (_, effects, outcome) := Apply(connector, t, Transmit(e));
            (effects, outcome) == TransmitAnswer(connector, trace, e)
  {
    if t.binding.Some? && t.binding.value.online && e.stateGeneration > 0 { TooOldExactly(t, trace, e); }
  }

  /**
   * In every run every call, of whatever kind and at whatever point, has exactly the effect and the outcome its history
   * calls for.
   */
  lemma CallsExactly(
    connector: u32, trackers: seq<Tracker>, traces: seq<Trace>, calls: seq<Call>, n: nat, call: Call)
    requires IsRun(connector, trackers, traces, calls) && n <= |calls|
    ensures var (_, effects, outcome) := Apply(connector, trackers[n], call);
            (effects, outcome) == Answer(connector, traces[n], call)
  {
    RunInvariant(connector, trackers, traces, calls, n);
    RunMirrors(connector, trackers, traces, calls, n);
    if call.Transmit? { TransmitAnswered(connector, trackers[n], traces[n], call.transmit); }
  }
}
