/** The supervisor keeps a backend connected: generations, reconnect attempts and their delays. */
module Supervisor {
  import opened Common

  datatype Policy = Policy(
    maxReconnectAttempts: u32, initialDelay: Duration, maximumDelay: Duration, stableAfter: Duration)

  // ----- Delays -----

  /** `1.checked_shl(attempt - 1)` in 32 bits, or the largest factor. */
  function Multiplier(attempt: u32): nat {
    var shift := Max(attempt - 1, 0);
    if shift < 32 then Power(2, shift) else U32_MAX
  }

  function DelayForAttempt(p: Policy, attempt: u32): (d: Duration)
    ensures d <= p.maximumDelay
  {
    Min(Min(p.initialDelay * Multiplier(attempt), DURATION_MAX), p.maximumDelay)
  }

  lemma {:induction false} PowerGrows(m: nat, n: nat)
    requires m <= n
    ensures Power(2, m) <= Power(2, n)
  {
    if m == n {
    } else {
      PowerGrows(m, n - 1);
    }
  }

  lemma PowerOfEight()
    ensures Power(2, 8) == 256
  {
    PowerSum(4, 4);
    assert Power(2, 4) == 16;
  }

  lemma PowerOfSixteen()
    ensures Power(2, 16) == 65536
  {
    PowerOfEight();
    PowerSum(8, 8);
  }

  lemma PowerOfThirtyTwo()
    ensures Power(2, 32) == 0x1_0000_0000
  {
    PowerOfSixteen();
    PowerSum(16, 16);
  }

  lemma PowerBelow32(n: nat)
    requires n < 32
    ensures Power(2, n) <= U32_MAX
  {
    PowerOfThirtyTwo();
    PowerGrows(n, 31);
    assert Power(2, 32) == 2 * Power(2, 31);
  }

  lemma {:induction false} PowerSum(m: nat, n: nat)
    ensures Power(2, m + n) == Power(2, m) * Power(2, n)
  {
    if n == 0 {
    } else {
      PowerSum(m, n - 1);
    }
  }

  /** The delay doubles from the initial one until the maximum caps it; from the 33rd attempt on the factor is fixed. */
  lemma DelayDoubles(p: Policy, attempt: u32)
    requires 1 <= attempt
    ensures DelayForAttempt(p, attempt) ==
              Min(p.initialDelay * (if attempt <= 32 then Power(2, attempt - 1) else U32_MAX), p.maximumDelay)
  {
  }

  /** Later attempts never wait less. */
  lemma DelayNeverShrinks(p: Policy, attempt: u32, later: u32)
    requires attempt <= later
    ensures DelayForAttempt(p, attempt) <= DelayForAttempt(p, later)
  {
    var m, n := Max(attempt - 1, 0), Max(later - 1, 0);
    if n < 32 { PowerGrows(m, n); } else if m < 32 { PowerBelow32(m); }
    TimesGrows(p.initialDelay, Multiplier(attempt), Multiplier(later));
  }

  // ----- The supervisor -----

  /** Events for the owner, and marks for what happens without one. */
  datatype Effect =
    | Connecting(generation: u64)
    | Connected(generation: u64)
    | InventoryChanged(generation: u64)
    | ConnectionFailed(generation: u64)
    | Disconnected(generation: u64, elapsed: Duration)
    | Scheduled(next: u64, attempt: u32, delay: Duration)
    | GaveUp(generation: u64, attempts: u32)
    | Stopped(last: Option<u64>)
    | TimerRetry
    | ManualRetry

  type Trace = seq<Effect>

  datatype Phase = Dialing | Online | Waiting(next: u64) | Exhausted | Ended

  /** `room` is the free space in the event queue. */
  datatype Task = Task(phase: Phase, generation: u64, lastConnected: Option<u64>, attempts: u32, room: nat,
      trace: Trace)

  datatype Input =
    | ConnectSucceeds
    | ConnectFails
    | DiscoveryFails
    | InventoryArrives
    | ConnectionEnds(elapsed: Duration)
    | TimerFires
    | Retry
    | Shutdown
    | OwnerGone
    | QueueRoom(room: nat)

  /** An event that finds the queue full ends the supervisor. */
  function Emit(t: Task, e: Effect): Task {
    if t.room == 0 then t.(phase := Ended) else t.(room := t.room - 1, trace := t.trace + [e])
  }

  function Mark(t: Task, e: Effect): Task { t.(trace := t.trace + [e]) }

  function Dial(t: Task, generation: u64): Task {
    Emit(t.(phase := Dialing, generation := generation), Connecting(generation))
  }

  function NewTask(initial: u64, room: nat): Task { Dial(Task(Dialing, initial, None, 0, room, []), initial) }

  /** `wait_for_retry` up to its wait. */
  function AwaitRetry(p: Policy, t: Task): Task {
    if t.attempts >= p.maxReconnectAttempts then Emit(t.(phase := Exhausted), GaveUp(t.generation, t.attempts))
    else
      var attempt := t.attempts + 1;
      var next := CheckedSucc(t.generation);
      if next.None? then t.(attempts := attempt, phase := Ended)
      else Emit(t.(attempts := attempt, phase := Waiting(next.value)),
          Scheduled(next.value, attempt, DelayForAttempt(p, attempt)))
  }

  function Fail(p: Policy, t: Task): Task {
    var u := Emit(t, ConnectionFailed(t.generation));
    if u.phase.Ended? then u else AwaitRetry(p, u)
  }

  /** A connection that has lasted long enough starts the attempts afresh. */
  function Disconnect(p: Policy, t: Task, elapsed: Duration): Task {
    var u := Emit(t, Disconnected(t.generation, elapsed));
    if u.phase.Ended? then u else AwaitRetry(p, if elapsed >= p.stableAfter then u.(attempts := 0) else u)
  }

  function RetryByHand(t: Task): Task {
    match t.phase
    case Waiting(next) => Dial(Mark(t.(attempts := 0), ManualRetry), next)
    case Exhausted =>
      var next := CheckedSucc(t.generation);
      if next.None? then t.(phase := Ended) else Dial(Mark(t.(attempts := 0), ManualRetry), next.value)
    case _ => t
  }

  /** The last event is sent if there is room for it. */
  function Stop(t: Task): Task {
    Emit(t, Stopped(if t.phase.Online? then Some(t.generation) else t.lastConnected)).(phase := Ended)
  }

  /** One wake-up of the supervisor; an input its phase does not listen to changes nothing. */
  function Step(p: Policy, t: Task, input: Input): Task {
    match input
    case QueueRoom(room) => t.(room := room)
    case ConnectSucceeds =>
      if t.phase.Dialing? then Emit(t.(phase := Online, lastConnected := Some(t.generation)), Connected(t.generation))
          else t
    case ConnectFails => if t.phase.Dialing? then Fail(p, t) else t
    case DiscoveryFails => if t.phase.Dialing? then Fail(p, t.(lastConnected := Some(t.generation))) else t
    case InventoryArrives => if t.phase.Online? then Emit(t, InventoryChanged(t.generation)) else t
    case ConnectionEnds(elapsed) => if t.phase.Online? then Disconnect(p, t, elapsed) else t
    case TimerFires => if t.phase.Waiting? then Dial(Mark(t, TimerRetry), t.phase.next) else t
    case Retry => RetryByHand(t)
    case Shutdown => if t.phase.Ended? then t else Stop(t)
    case OwnerGone => t.(phase := Ended)
  }
}
