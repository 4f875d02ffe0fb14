/** Generation-safe ownership of the CastKMS userspace CEC transport. */
module CecTransport {
  import opened Common

  datatype Binding = Binding(
    transportId: u32,
    transportGeneration: NonZeroU64,
    stateGeneration: NonZeroU64,
    outputIndex: u32,
    online: bool)

  datatype Pending = Pending(transportGeneration: NonZeroU64, cookie: NonZeroU64)

  datatype TransmitEvent = TransmitEvent(
    connectorId: u32,
    transportId: u32,
    transportGeneration: u64,
    stateGeneration: u64,
    outputIndex: u32,
    cookie: u64)

  datatype Admission = Admitted | Stale

  datatype Error = InvalidState | InvalidMetadata | SystemCall

  datatype Tracker = Tracker(binding: Option<Binding>, pending: Option<Pending>, requiresStateAdvance: bool)

  const UNBOUND := Tracker(None, None, false)

  /** What the transport's owner and the kernel get to see, in order. */
  datatype Effect =
    | Bound(generation: NonZeroU64, transportId: u32, transportGeneration: NonZeroU64, outputIndex: u32)
    | Switched(online: bool)
    | Suspended
    | Accepted(generation: NonZeroU64, pending: Pending)
    | Completed(pending: Pending)
    | Unbound

  type Trace = seq<Effect>

  function BoundTo(b: Binding): Effect {
    Bound(b.stateGeneration, b.transportId, b.transportGeneration, b.outputIndex)
  }

  // ----- The tracker -----

  function Installed(t: Tracker, binding: Binding): (Tracker, Result<Unit, Error>) {
    if t.binding.Some? then (t, Err(InvalidState)) else (t.(binding := Some(binding)), Ok(Unit))
  }

  function PutOnline(t: Tracker, online: bool): (Tracker, Result<Unit, Error>) {
    if (t.pending.Some? && !online) || t.binding.None? then (t, Err(InvalidState))
    else if t.binding.value.online == online then (t, Ok(Unit))
    else (t.(requiresStateAdvance := true, binding := Some(t.binding.value.(online := online))), Ok(Unit))
  }

  function AuthoritySuspended(t: Tracker): (Tracker, Result<Unit, Error>) {
    if t.binding.None? then (t, Err(InvalidState))
    else (Tracker(Some(t.binding.value.(online := false)), None, true), Ok(Unit))
  }

  predicate SameBinding(b: Binding, e: TransmitEvent) {
    e.transportId == b.transportId && e.transportGeneration == b.transportGeneration && e.outputIndex == b.outputIndex
  }

  /** The event was raised before the interval the transport is in, as far as the accepted generations tell. */
  predicate TooOld(t: Tracker, e: TransmitEvent)
    requires t.binding.Some?
  {
    e.stateGeneration < t.binding.value.stateGeneration
    || (t.requiresStateAdvance && e.stateGeneration == t.binding.value.stateGeneration)
  }

  function Recorded(t: Tracker, e: TransmitEvent): (Tracker, Result<Admission, Error>) {
    if t.binding.None? then (t, Err(InvalidState))
    else
      var b := t.binding.value;
      if !b.online then (t, Ok(Stale))
      else if !SameBinding(b, e) || e.stateGeneration == 0 then (t, Err(InvalidMetadata))
      else if TooOld(t, e) then (t, Ok(Stale))
      else if e.cookie == 0 then (t, Err(InvalidMetadata))
      else if t.pending.Some? then (t, Err(InvalidState))
      else (Tracker(Some(b.(stateGeneration := e.stateGeneration)), Some(Pending(b.transportGeneration, e.cookie)),
          false), Ok(Admitted))
  }

  function ValidateCompletion(t: Tracker, e: TransmitEvent): Result<Unit, Error> {
    if t.pending.None? then Err(InvalidState)
    else if t.pending.value.transportGeneration != e.transportGeneration
        || t.pending.value.cookie != e.cookie then Err(InvalidMetadata)
    else Ok(Unit)
  }

  function Removed(t: Tracker): (Tracker, Result<Unit, Error>) {
    if t.pending.Some? || t.binding.None? then (t, Err(InvalidState))
    else (t.(binding := None, requiresStateAdvance := false), Ok(Unit))
  }

  class CecTracker {
    var binding: Option<Binding>
    var pending: Option<Pending>
    var requiresStateAdvance: bool

    ghost function View(): Tracker
      reads this
    {
      Tracker(binding, pending, requiresStateAdvance)
    }

    constructor ()
      ensures View() == UNBOUND
    {
      binding, pending, requiresStateAdvance := None, None, false;
    }

    method Install(next: Binding) returns (r: Result<Unit, Error>)
      modifies this
      ensures (View(), r) == Installed(old(View()), next)
    {
      if binding.Some? { return Err(InvalidState); }
      binding := Some(next);
      return Ok(Unit);
    }

    method SetOnline(online: bool) returns (r: Result<Unit, Error>)
      modifies this
      ensures (View(), r) == PutOnline(old(View()), online)
    {
      if pending.Some? && !online { return Err(InvalidState); }
      if binding.None? { return Err(InvalidState); }
      if binding.value.online != online {
        requiresStateAdvance := true;
        binding := Some(binding.value.(online := online));
      }
      return Ok(Unit);
    }

    method RecordAuthoritySuspended() returns (r: Result<Unit, Error>)
      modifies this
      ensures (View(), r) == AuthoritySuspended(old(View()))
    {
      if binding.None? { return Err(InvalidState); }
      binding := Some(binding.value.(online := false));
      pending := None;
      requiresStateAdvance := true;
      return Ok(Unit);
    }

    method RecordTransmit(e: TransmitEvent) returns (r: Result<Admission, Error>)
      modifies this
      ensures (View(), r) == Recorded(old(View()), e)
    {
      if binding.None? { return Err(InvalidState); }
      var current := binding.value;
      if !current.online { return Ok(Stale); }
      if e.transportId != current.transportId || e.transportGeneration != current.transportGeneration
          || e.outputIndex != current.outputIndex {
        return Err(InvalidMetadata);
      }
      if e.stateGeneration == 0 { return Err(InvalidMetadata); }
      if e.stateGeneration < current.stateGeneration
          || (requiresStateAdvance && e.stateGeneration == current.stateGeneration) {
        return Ok(Stale);
      }
      if e.cookie == 0 { return Err(InvalidMetadata); }
      if pending.Some? { return Err(InvalidState); }
      binding := Some(current.(stateGeneration := e.stateGeneration));
      requiresStateAdvance := false;
      pending := Some(Pending(e.transportGeneration, e.cookie));
      return Ok(Admitted);
    }

    method Complete()
      modifies this
      ensures View() == old(View()).(pending := None)
    {
      pending := None;
    }

    method Remove() returns (r: Result<Unit, Error>)
      modifies this
      ensures (View(), r) == Removed(old(View()))
    {
      if pending.Some? || binding.None? { return Err(InvalidState); }
      binding := None;
      requiresStateAdvance := false;
      return Ok(Unit);
    }
  }

  // ----- The client, which orders system calls around the tracker -----

  datatype Call =
    | Bind(binding: Binding, callOk: bool)
    | SetState(online: bool, callOk: bool)
    | Suspend
    | Transmit(transmit: TransmitEvent)
    | Complete(transmit: TransmitEvent, callOk: bool)
    | Unbind(callOk: bool)

  datatype Outcome = Done | Refused

  /** A client call: its tracker afterwards, what has happened, and whether it succeeded. */
  function Apply(connector: u32, t: Tracker, call: Call): (Tracker, Trace, Outcome) {
    match call
    case Bind(binding, callOk) =>
      if t.binding.Some? || !callOk then (t, [], Refused)
      else (Installed(t, binding.(online := false)).0, [BoundTo(binding)], Done)
    case SetState(online, callOk) =>
      if t.binding.None? then (t, [], Refused)
      else if t.binding.value.online == online then (t, [], Done)
      else if (!online && t.pending.Some?) || !callOk then (t, [], Refused)
      else (PutOnline(t, online).0, [Switched(online)], Done)
    case Suspend =>
      var (u, r) := AuthoritySuspended(t);
      if r.Err? then (t, [], Refused) else (u, [Suspended], Done)
    case Transmit(e) =>
      if e.connectorId != connector then (t, [], Refused)
      else
        var (u, r) := Recorded(t, e);
        if r.Err? then (t, [], Refused)
        else if r.value.Stale? then (t, [], Done)
        else (u, [Accepted(u.binding.value.stateGeneration, u.pending.value)], Done)
    case Complete(e, callOk) =>
      if ValidateCompletion(t, e).Err? || t.binding.None? || !callOk then (t, [], Refused)
      else (t.(pending := None), [Completed(t.pending.value)], Done)
    case Unbind(callOk) =>
      if t.binding.None? || t.binding.value.online || t.pending.Some? || !callOk then (t, [], Refused)
      else (Removed(t).0, [Unbound], Done)
  }
}
