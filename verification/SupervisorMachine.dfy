/** The supervisor as the program runs it. */
module SupervisorMachine {
  import opened Common
  import opened Supervisor
  import opened SupervisorRuns

  class SupervisorTask {
    const policy: Policy
    const initial: u64
    var phase: Phase
    var connectionGeneration: u64
    var lastConnectedGeneration: Option<u64>
    var reconnectAttempts: u32
    var room: nat
    ghost var trace: Trace

    ghost function View(): Task
      reads this
    {
      Task(phase, connectionGeneration, lastConnectedGeneration, reconnectAttempts, room, trace)
    }

    /** What has been announced so far is in order, and the counters agree with it. */
    ghost predicate Valid()
      reads this
    {
      Invariant(policy, initial, View())
    }

    constructor (policy: Policy, initial: u64, room: nat)
      ensures Valid() && View() == NewTask(initial, room) && this.policy == policy && this.initial == initial
    {
      this.policy, this.initial := policy, initial;
      phase, connectionGeneration, lastConnectedGeneration, reconnectAttempts := Dialing, initial, None, 0;
      this.room := room;
      trace := [];
      new;
      NewTaskInvariant(policy, initial, room);
      Redial(initial);
    }

    method Announce(e: Effect) returns (sent: bool)
      modifies `phase, `room, `trace
      ensures View() == Emit(old(View()), e) && sent == (old(room) > 0)
    {
      if room == 0 {
        phase := Ended;
        return false;
      }
      room, trace := room - 1, trace + [e];
      return true;
    }

    method Redial(generation: u64)
      modifies this
      ensures View() == Dial(old(View()), generation)
    {
      phase, connectionGeneration := Dialing, generation;
      var _ := Announce(Connecting(generation));
    }

    method WaitForRetry()
      modifies this
      ensures View() == AwaitRetry(policy, old(View()))
    {
      if reconnectAttempts >= policy.maxReconnectAttempts {
        phase := Exhausted;
        var _ := Announce(GaveUp(connectionGeneration, reconnectAttempts));
        return;
      }
      reconnectAttempts := reconnectAttempts + 1;
      if connectionGeneration == U64_MAX {
        phase := Ended;
        return;
      }
      var next := connectionGeneration + 1;
      phase := Waiting(next);
      var _ := Announce(Scheduled(next, reconnectAttempts, DelayForAttempt(policy, reconnectAttempts)));
    }

    method ConnectionLost(e: Effect, stable: bool)
      requires !phase.Ended?
      modifies this
      ensures var t := Emit(old(View()), e);
              View() == if t.phase.Ended? then t
                        else AwaitRetry(policy, if stable then t.(attempts := 0) else t)
    {
      var sent := Announce(e);
      if sent {
        if stable { reconnectAttempts := 0; }
        WaitForRetry();
      }
    }

    method RetryNow()
      modifies this
      ensures View() == RetryByHand(old(View()))
    {
      match phase {
        case Waiting(next) =>
          reconnectAttempts, trace := 0, trace + [ManualRetry];
          Redial(next);
        case Exhausted =>
          if connectionGeneration == U64_MAX {
            phase := Ended;
          } else {
            reconnectAttempts, trace := 0, trace + [ManualRetry];
            Redial(connectionGeneration + 1);
          }
        case _ =>
      }
    }

    method Wake(input: Input)
      requires Valid()
      modifies this
      ensures Valid() && View() == Step(policy, old(View()), input)
    {
      StepKeeps(policy, initial, View(), input);
      match input {
        case QueueRoom(free) => room := free;
        case ConnectSucceeds =>
          if phase.Dialing? {
            phase, lastConnectedGeneration := Online, Some(connectionGeneration);
            var _ := Announce(Connected(connectionGeneration));
          }
        case ConnectFails => if phase.Dialing? { ConnectionLost(ConnectionFailed(connectionGeneration), false); }
        case DiscoveryFails =>
          if phase.Dialing? {
            lastConnectedGeneration := Some(connectionGeneration);
            ConnectionLost(ConnectionFailed(connectionGeneration), false);
          }
        case InventoryArrives => if phase.Online? { var _ := Announce(InventoryChanged(connectionGeneration)); }
        case ConnectionEnds(elapsed) =>
          if phase.Online? {
            ConnectionLost(Disconnected(connectionGeneration, elapsed), elapsed >= policy.stableAfter);
          }
        case TimerFires =>
          if phase.Waiting? {
            trace := trace + [TimerRetry];
            Redial(phase.next);
          }
        case Retry => RetryNow();
        case Shutdown =>
          if !phase.Ended? {
            var last := if phase.Online? then Some(connectionGeneration) else lastConnectedGeneration;
            var _ := Announce(Stopped(last));
            phase := Ended;
          }
        case OwnerGone => phase := Ended;
      }
    }
  }
}
