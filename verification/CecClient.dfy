/** The client that orders system calls around the CEC tracker. */
module CecClient {
  import opened Common
  import opened CecTransport
  import opened CecRuns

  class CastKmsClient {
    const connector: u32
    const cec: CecTracker
    ghost var trace: Trace

    /** Tracker and history agree, and the history is in order. */
    ghost predicate Valid()
      reads this, cec
    {
      Invariant(cec.View(), trace)
    }

    constructor (connector: u32)
      ensures Valid() && this.connector == connector && cec.View() == UNBOUND && trace == [] && fresh(cec)
    {
      this.connector := connector;
      cec := new CecTracker();
      trace := [];
    }

    method BindTransport(binding: Binding, callOk: bool) returns (r: Outcome)
      requires Valid()
      modifies this, cec
      ensures Valid()
      ensures var (t, effects, outcome) := Apply(connector, old(cec.View()), Bind(binding, callOk));
              cec.View() == t && trace == old(trace) + effects && r == outcome
    {
      StepKeeps(connector, cec.View(), trace, Bind(binding, callOk));
      if cec.binding.Some? || !callOk { return Refused; }
      var installed := cec.Install(binding.(online := false));
      trace := trace + [BoundTo(binding)];
      return Done;
    }

    method SetTransportOnline(online: bool, callOk: bool) returns (r: Outcome)
      requires Valid()
      modifies this, cec
      ensures Valid()
      ensures var (t, effects, outcome) := Apply(connector, old(cec.View()), SetState(online, callOk));
              cec.View() == t && trace == old(trace) + effects && r == outcome
    {
      StepKeeps(connector, cec.View(), trace, SetState(online, callOk));
      if cec.binding.None? { return Refused; }
      if cec.binding.value.online == online { return Done; }
      if (!online && cec.pending.Some?) || !callOk { return Refused; }
      var switched := cec.SetOnline(online);
      trace := trace + [Switched(online)];
      return Done;
    }

    method RecordAuthoritySuspended() returns (r: Outcome)
      requires Valid()
      modifies this, cec
      ensures Valid()
      ensures var (t, effects, outcome) := Apply(connector, old(cec.View()), Suspend);
              cec.View() == t && trace == old(trace) + effects && r == outcome
    {
      StepKeeps(connector, cec.View(), trace, Suspend);
      var recorded := cec.RecordAuthoritySuspended();
      if recorded.Err? { return Refused; }
      trace := trace + [Suspended];
      return Done;
    }

    method RecordTransmit(e: TransmitEvent) returns (r: Outcome)
      requires Valid()
      modifies this, cec
      ensures Valid()
      ensures var (t, effects, outcome) := Apply(connector, old(cec.View()), Transmit(e));
              cec.View() == t && trace == old(trace) + effects && r == outcome
    {
      StepKeeps(connector, cec.View(), trace, Transmit(e));
      if e.connectorId != connector { return Refused; }
      var recorded := cec.RecordTransmit(e);
      if recorded.Err? { return Refused; }
      if recorded.value.Admitted? { trace := trace + [Accepted(cec.binding.value.stateGeneration, cec.pending.value)]; }
      return Done;
    }

    method CompleteTransmit(e: TransmitEvent, callOk: bool) returns (r: Outcome)
      requires Valid()
      modifies this, cec
      ensures Valid()
      ensures var (t, effects, outcome) := Apply(connector, old(cec.View()), Complete(e, callOk));
              cec.View() == t && trace == old(trace) + effects && r == outcome
    {
      StepKeeps(connector, cec.View(), trace, Complete(e, callOk));
      if cec.pending.None? || cec.pending.value.transportGeneration != e.transportGeneration
          || cec.pending.value.cookie != e.cookie {
        return Refused;
      }
      if cec.binding.None? || !callOk { return Refused; }
      trace := trace + [Completed(cec.pending.value)];
      cec.Complete();
      return Done;
    }

    method UnbindTransport(callOk: bool) returns (r: Outcome)
      requires Valid()
      modifies this, cec
      ensures Valid()
      ensures var (t, effects, outcome) := Apply(connector, old(cec.View()), Unbind(callOk));
              cec.View() == t && trace == old(trace) + effects && r == outcome
    {
      StepKeeps(connector, cec.View(), trace, Unbind(callOk));
      if cec.binding.None? || cec.binding.value.online || cec.pending.Some? || !callOk { return Refused; }
      var removed := cec.Remove();
      trace := trace + [Unbound];
      return Done;
    }
  }
}
