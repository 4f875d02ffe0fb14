/** The supervisor over whole runs. */
module SupervisorRuns {
  import opened Common
  import opened Supervisor

  predicate Life(e: Effect) { e.Connecting? || e.Connected? || e.ConnectionFailed? || e.Disconnected? }

  /** The last change in the life of the connection. */
  ghost function LastLife(t: Trace): Option<Effect> {
    if t == [] then None
    else if Life(t[|t| - 1]) then Some(t[|t| - 1])
    else LastLife(t[..|t| - 1])
  }

  /** Position `j` holds `e`, and nothing in the life of the connection lies between it and `k`. */
  ghost predicate JustBefore(t: Trace, j: nat, k: nat, e: Effect) {
    j < k <= |t| && t[j] == e && forall m :: j < m < k ==> !Life(t[m])
  }

  lemma {:induction false} LastLifeAt(t: Trace, e: Effect)
    requires LastLife(t) == Some(e)
    ensures exists j: nat :: JustBefore(t, j, |t|, e)
  {
    var n := |t| - 1;
    if Life(t[n]) {
      assert JustBefore(t, n, |t|, e);
    } else {
      LastLifeAt(t[..n], e);
      var j: nat :| JustBefore(t[..n], j, n, e);
      assert JustBefore(t, j, |t|, e);
    }
  }

  /** What must be the last change in the connection's life when `e` is emitted. */
  function Cause(e: Effect): Option<Effect> {
    match e
    case Connected(g) => Some(Connecting(g))
    case ConnectionFailed(g) => Some(Connecting(g))
    case InventoryChanged(g) => Some(Connected(g))
    case Disconnected(g, _) => Some(Connected(g))
    case _ => None
  }

  ghost predicate Caused(t: Trace) {
    forall k :: 0 <= k < |t| && Cause(t[k]).Some? ==> exists j: nat :: JustBefore(t, j, k, Cause(t[k]).value)
  }

  ghost function Dials(t: Trace): nat {
    if t == [] then 0 else Dials(t[..|t| - 1]) + if t[|t| - 1].Connecting? then 1 else 0
  }

  /** The generations dialled are consecutive, from the initial one on. */
  ghost predicate Consecutive(t: Trace, initial: u64) {
    forall k :: 0 <= k < |t| && t[k].Connecting? ==> t[k].generation == initial + Dials(t[..k])
  }

  predicate Loss(e: Effect) { e.ConnectionFailed? || e.Disconnected? }

  /** The connection was up long enough for the attempts to start afresh. */
  predicate Stable(p: Policy, e: Effect) { e.Disconnected? && e.elapsed >= p.stableAfter }

  /** Connections lost since the last manual retry, or since the last stable connection and with it. */
  ghost function Losses(p: Policy, t: Trace): nat {
    if t == [] || t[|t| - 1].ManualRetry? then 0
    else if Stable(p, t[|t| - 1]) then 1
    else Losses(p, t[..|t| - 1]) + if Loss(t[|t| - 1]) then 1 else 0
  }

  /** Automatic retries since the last manual one or the last stable connection. */
  ghost function Automatic(p: Policy, t: Trace): nat {
    if t == [] then 0
    else
      var e := t[|t| - 1];
      if e.ManualRetry? || Stable(p, e) then 0 else Automatic(p, t[..|t| - 1]) + if e.TimerRetry? then 1 else 0
  }

  ghost predicate Limited(p: Policy, t: Trace) {
    forall k :: 0 <= k <= |t| ==> Automatic(p, t[..k]) <= p.maxReconnectAttempts
  }

  /** What a loss is followed by: another attempt, counted and delayed, or the end of the attempts. */
  ghost predicate FollowsLoss(p: Policy, t: Trace, e: Effect)
    requires t != [] && Loss(t[|t| - 1])
  {
    var generation, losses := t[|t| - 1].generation, Losses(p, t);
    if losses > p.maxReconnectAttempts then e == GaveUp(generation, p.maxReconnectAttempts)
    else generation < U64_MAX && e == Scheduled(generation + 1, losses, DelayForAttempt(p, losses))
  }

  ghost predicate LossesAnswered(p: Policy, t: Trace) {
    forall k :: 0 <= k < |t| - 1 && Loss(t[k]) ==> FollowsLoss(p, t[..k + 1], t[k + 1])
  }

  predicate Last(t: Trace, p: Effect -> bool) { t != [] && p(t[|t| - 1]) }

  /** `e` may follow `t`. */
  ghost predicate MayFollow(p: Policy, initial: u64, t: Trace, e: Effect) {
    && (Cause(e).Some? ==> LastLife(t) == Cause(e))
    && (e.Connecting? ==> e.generation == initial + Dials(t))
    && (e.Connecting? ==> t == [] || Last(t, (x: Effect) => x.TimerRetry? || x.ManualRetry?))
    && (e.TimerRetry? ==> Last(t, (x: Effect) => x.Scheduled?) && Automatic(p, t) < p.maxReconnectAttempts)
    && (e.ManualRetry? ==> Last(t, (x: Effect) => x.Scheduled? || x.GaveUp?))
    && (if Last(t, Loss) then FollowsLoss(p, t, e) else !e.Scheduled? && !e.GaveUp?)
  }

  ghost predicate Good(p: Policy, initial: u64, t: Trace) {
    t == [] || (Good(p, initial, t[..|t| - 1]) && MayFollow(p, initial, t[..|t| - 1], t[|t| - 1]))
  }

  lemma Appended(p: Policy, initial: u64, t: Trace, e: Effect)
    requires Good(p, initial, t) && MayFollow(p, initial, t, e)
    ensures Good(p, initial, t + [e])
    ensures LastLife(t + [e]) == if Life(e) then Some(e) else LastLife(t)
    ensures Dials(t + [e]) == Dials(t) + if e.Connecting? then 1 else 0
    ensures Automatic(p, t + [e]) == if e.ManualRetry? || Stable(p, e) then 0
              else Automatic(p, t) + if e.TimerRetry? then 1 else 0
    ensures Losses(p, t + [e]) == if e.ManualRetry? then 0 else if Stable(p, e) then 1
              else Losses(p, t) + if Loss(e) then 1 else 0
  {
    assert (t + [e])[..|t|] == t;
  }

  lemma CausedAppend(t: Trace, e: Effect)
    requires Caused(t) && (Cause(e).Some? ==> LastLife(t) == Cause(e))
    ensures Caused(t + [e])
  {
    var u := t + [e];
    forall k | 0 <= k < |u| && Cause(u[k]).Some? ensures exists j: nat :: JustBefore(u, j, k, Cause(u[k]).value) {
      if k < |t| {
        var j: nat :| JustBefore(t, j, k, Cause(t[k]).value);
        assert JustBefore(u, j, k, Cause(u[k]).value);
      } else {
        LastLifeAt(t, Cause(e).value);
        var j: nat :| JustBefore(t, j, |t|, Cause(e).value);
        assert JustBefore(u, j, k, Cause(u[k]).value);
      }
    }
  }

  lemma {:induction false} GoodIsCaused(p: Policy, initial: u64, t: Trace)
    requires Good(p, initial, t)
    ensures Caused(t)
  {
    if t == [] {
    } else {
      var n := |t| - 1;
      GoodIsCaused(p, initial, t[..n]);
      CausedAppend(t[..n], t[n]);
      assert t == t[..n] + [t[n]];
    }
  }

  lemma {:induction false} GoodPrefix(p: Policy, initial: u64, t: Trace, k: nat)
    requires Good(p, initial, t) && k <= |t|
    ensures Good(p, initial, t[..k]) && (k < |t| ==> MayFollow(p, initial, t[..k], t[k]))
  {
    var n := |t| - 1;
    if k < n {
      GoodPrefix(p, initial, t[..n], k);
      assert t[..n][..k] == t[..k] && t[..n][k] == t[k];
    } else if k == |t| {
      assert t[..k] == t;
    }
  }

  lemma {:induction false} GoodIsLimited(p: Policy, initial: u64, t: Trace)
    requires Good(p, initial, t)
    ensures Automatic(p, t) <= p.maxReconnectAttempts
  {
    if t == [] {
    } else {
      GoodIsLimited(p, initial, t[..|t| - 1]);
    }
  }

  lemma LossAnswered(p: Policy, initial: u64, t: Trace, k: nat)
    requires Good(p, initial, t) && k + 1 < |t| && Loss(t[k])
    ensures FollowsLoss(p, t[..k + 1], t[k + 1])
  {
    GoodPrefix(p, initial, t, k + 1);
    assert Last(t[..k + 1], Loss);
  }

  /** A trace built step by step has the properties of whole traces. */
  lemma GoodTraces(p: Policy, initial: u64, t: Trace)
    requires Good(p, initial, t)
    ensures Caused(t) && Consecutive(t, initial) && Limited(p, t) && LossesAnswered(p, t)
  {
    GoodIsCaused(p, initial, t);
    forall k | 0 <= k < |t| && t[k].Connecting?
        ensures t[k].generation == initial + Dials(t[..k]) { GoodPrefix(p, initial, t, k); }
    forall k | 0 <= k <= |t| ensures Automatic(p, t[..k]) <= p.maxReconnectAttempts {
      GoodPrefix(p, initial, t, k);
      GoodIsLimited(p, initial, t[..k]);
    }
    forall k | 0 <= k < |t| - 1 && Loss(t[k]) ensures FollowsLoss(p, t[..k + 1], t[k + 1]) {
      LossAnswered(p, initial, t, k);
    }
  }

  /** Ready to emit: counters in bounds and the number of dials known. */
  ghost predicate Sane(p: Policy, initial: u64, t: Task) {
    && Good(p, initial, t.trace)
    && t.generation + 1 == initial + Dials(t.trace)
    && Automatic(p, t.trace) <= t.attempts <= p.maxReconnectAttempts
  }

  ghost predicate Invariant(p: Policy, initial: u64, t: Task) {
    && Good(p, initial, t.trace)
    && (!t.phase.Ended? ==> Sane(p, initial, t) && !Last(t.trace, Loss))
    && (t.phase.Dialing? || t.phase.Online? || t.phase.Waiting? ==> t.attempts == Losses(p, t.trace))
    && (t.phase.Dialing? ==> LastLife(t.trace) == Some(Connecting(t.generation)))
    && (t.phase.Online? ==> LastLife(t.trace) == Some(Connected(t.generation)))
    && (t.phase.Waiting? ==>
          && t.phase.next == t.generation + 1 && Automatic(p, t.trace) < t.attempts
          && Last(t.trace, (x: Effect) => x.Scheduled?))
    && (t.phase.Exhausted? ==> Last(t.trace, (x: Effect) => x.GaveUp?))
  }

  lemma DialKeeps(p: Policy, initial: u64, t: Task, generation: u64)
    requires Good(p, initial, t.trace) && generation == initial + Dials(t.trace)
    requires Automatic(p, t.trace) <= t.attempts <= p.maxReconnectAttempts && t.attempts == Losses(p, t.trace)
    requires t.trace == [] || Last(t.trace, (x: Effect) => x.TimerRetry? || x.ManualRetry?)
    ensures Invariant(p, initial, Dial(t, generation))
  {
    Appended(p, initial, t.trace, Connecting(generation));
  }

  /** A loss has been announced; `attempts` does not count it yet. */
  ghost predicate Counting(p: Policy, initial: u64, t: Task) {
    && Sane(p, initial, t) && Last(t.trace, Loss) && t.trace[|t.trace| - 1].generation == t.generation
    && t.attempts + 1 == Losses(p, t.trace)
  }

  lemma ScheduleKeeps(p: Policy, initial: u64, t: Task, e: Effect)
    requires Counting(p, initial, t) && t.attempts < p.maxReconnectAttempts && t.generation < U64_MAX
    requires e.Scheduled? && FollowsLoss(p, t.trace, e)
    ensures Invariant(p, initial, Emit(t.(attempts := t.attempts + 1, phase := Waiting(t.generation + 1)), e))
  {
    Appended(p, initial, t.trace, e);
  }

  lemma GiveUpKeeps(p: Policy, initial: u64, t: Task)
    requires Counting(p, initial, t) && t.attempts >= p.maxReconnectAttempts
    ensures Invariant(p, initial, Emit(t.(phase := Exhausted), GaveUp(t.generation, t.attempts)))
  {
    Appended(p, initial, t.trace, GaveUp(t.generation, t.attempts));
  }

  lemma AwaitRetryKeeps(p: Policy, initial: u64, t: Task)
    requires Counting(p, initial, t)
    ensures Invariant(p, initial, AwaitRetry(p, t))
  {
    if t.attempts >= p.maxReconnectAttempts {
      GiveUpKeeps(p, initial, t);
    } else if t.generation < U64_MAX {
      var delay := DelayForAttempt(p, t.attempts + 1);
      ScheduleKeeps(p, initial, t, Scheduled(t.generation + 1, t.attempts + 1, delay));
    }
  }

  lemma LostKeeps(p: Policy, initial: u64, t: Task, e: Effect)
    requires Sane(p, initial, t) && Loss(e) && LastLife(t.trace) == Cause(e) && !Last(t.trace, Loss)
    requires e.generation == t.generation && t.attempts == Losses(p, t.trace)
    ensures var u := Emit(t, e);
            Invariant(p, initial, if t.room == 0 then u.(phase := Ended)
                else AwaitRetry(p, if Stable(p, e) then u.(attempts := 0) else u))
  {
    if t.room > 0 {
      Appended(p, initial, t.trace, e);
      var u := Emit(t, e);
      AwaitRetryKeeps(p, initial, if Stable(p, e) then u.(attempts := 0) else u);
    }
  }

  lemma ManualKeeps(p: Policy, initial: u64, t: Task)
    requires Invariant(p, initial, t)
    ensures Invariant(p, initial, RetryByHand(t))
  {
    if t.phase.Waiting? || (t.phase.Exhausted? && t.generation < U64_MAX) {
      Appended(p, initial, t.trace, ManualRetry);
      DialKeeps(p, initial, Mark(t.(attempts := 0), ManualRetry), t.generation + 1);
    }
  }

  lemma DialingKeeps(p: Policy, initial: u64, t: Task, input: Input)
    requires Invariant(p, initial, t) && t.phase.Dialing?
               && (input.ConnectSucceeds? || input.ConnectFails? || input.DiscoveryFails?)
    ensures Invariant(p, initial, Step(p, t, input))
  {
    match input {
      case ConnectSucceeds => Appended(p, initial, t.trace, Connected(t.generation));
      case ConnectFails => LostKeeps(p, initial, t, ConnectionFailed(t.generation));
      case DiscoveryFails => LostKeeps(p, initial, t.(lastConnected := Some(t.generation)),
          ConnectionFailed(t.generation));
    }
  }

  lemma OnlineKeeps(p: Policy, initial: u64, t: Task, input: Input)
    requires Invariant(p, initial, t) && t.phase.Online? && (input.InventoryArrives? || input.ConnectionEnds?)
    ensures Invariant(p, initial, Step(p, t, input))
  {
    match input {
      case InventoryArrives => Appended(p, initial, t.trace, InventoryChanged(t.generation));
      case ConnectionEnds(elapsed) => LostKeeps(p, initial, t, Disconnected(t.generation, elapsed));
    }
  }

  lemma StepKeeps(p: Policy, initial: u64, t: Task, input: Input)
    requires Invariant(p, initial, t)
    ensures Invariant(p, initial, Step(p, t, input))
  {
    match input {
      case ConnectSucceeds => if t.phase.Dialing? { DialingKeeps(p, initial, t, input); }
      case ConnectFails => if t.phase.Dialing? { DialingKeeps(p, initial, t, input); }
      case DiscoveryFails => if t.phase.Dialing? { DialingKeeps(p, initial, t, input); }
      case InventoryArrives => if t.phase.Online? { OnlineKeeps(p, initial, t, input); }
      case ConnectionEnds(_) => if t.phase.Online? { OnlineKeeps(p, initial, t, input); }
      case TimerFires =>
        if t.phase.Waiting? {
          Appended(p, initial, t.trace, TimerRetry);
          DialKeeps(p, initial, Mark(t, TimerRetry), t.phase.next);
        }
      case Retry => ManualKeeps(p, initial, t);
      case Shutdown =>
        if !t.phase.Ended? { Appended(p, initial, t.trace,
            Stopped(if t.phase.Online? then Some(t.generation) else t.lastConnected)); }
      case QueueRoom(_) =>
      case OwnerGone =>
    }
  }

  ghost predicate IsRun(p: Policy, initial: u64, room: nat, tasks: seq<Task>, inputs: seq<Input>) {
    && |tasks| == |inputs| + 1 && tasks[0] == NewTask(initial, room)
    && forall i :: 0 <= i < |inputs| ==> tasks[i + 1] == Step(p, tasks[i], inputs[i])
  }

  lemma NewTaskInvariant(p: Policy, initial: u64, room: nat)
    ensures Invariant(p, initial, NewTask(initial, room))
  {
    DialKeeps(p, initial, Task(Dialing, initial, None, 0, room, []), initial);
  }

  lemma {:induction false} RunInvariant(p: Policy, initial: u64, room: nat, tasks: seq<Task>, inputs: seq<Input>,
      n: nat)
    requires IsRun(p, initial, room, tasks, inputs) && n <= |inputs|
    ensures Invariant(p, initial, tasks[n])
  {
    if n == 0 {
      NewTaskInvariant(p, initial, room);
    } else {
      RunInvariant(p, initial, room, tasks, inputs, n - 1);
      StepKeeps(p, initial, tasks[n - 1], inputs[n - 1]);
    }
  }

  /** Whatever happens: generations are consecutive, each event has its cause, and automatic retries are bounded. */
  lemma SupervisorIsOrderly(p: Policy, initial: u64, room: nat, tasks: seq<Task>, inputs: seq<Input>, n: nat)
    requires IsRun(p, initial, room, tasks, inputs) && n <= |inputs|
    ensures Consecutive(tasks[n].trace, initial) && Caused(tasks[n].trace) && Limited(p, tasks[n].trace)
  {
    RunInvariant(p, initial, room, tasks, inputs, n);
    GoodTraces(p, initial, tasks[n].trace);
  }

  /**
   * In every run the next thing announced after a lost connection is another attempt, numbered by the losses since the
   * last manual retry or stable connection and delayed accordingly, until the limit is exceeded; only a supervisor that
   * has ended leaves a loss unanswered.
   */
  lemma LossesAreAnswered(p: Policy, initial: u64, room: nat, tasks: seq<Task>, inputs: seq<Input>, n: nat, k: nat)
    requires IsRun(p, initial, room, tasks, inputs) && n <= |inputs| && k < |tasks[n].trace|
    requires var e := tasks[n].trace[k]; e.ConnectionFailed? || e.Disconnected?
    ensures var t := tasks[n].trace;
            var generation, losses := t[k].generation, Losses(p, t[..k + 1]);
            if k + 1 == |t| then tasks[n].phase.Ended?
            else if losses > p.maxReconnectAttempts then t[k + 1] == GaveUp(generation, p.maxReconnectAttempts)
            else generation < U64_MAX && t[k + 1] == Scheduled(generation + 1, losses, DelayForAttempt(p, losses))
  {
    RunInvariant(p, initial, room, tasks, inputs, n);
    if k + 1 < |tasks[n].trace| {
      LossAnswered(p, initial, tasks[n].trace, k);
    }
  }

  predicate Reaches(t: Task, input: Input) {
    t.phase.Dialing? && (input.ConnectSucceeds? || input.DiscoveryFails?)
  }

  /** The last generation that reached its backend, whether or not its discovery then started. */
  ghost function LastReached(tasks: seq<Task>, inputs: seq<Input>, n: nat): Option<u64>
    requires n <= |inputs| && n < |tasks|
  {
    if n == 0 then None
    else if Reaches(tasks[n - 1], inputs[n - 1]) then Some(tasks[n - 1].generation)
    else LastReached(tasks, inputs, n - 1)
  }

  lemma StepReaches(p: Policy, t: Task, input: Input)
    ensures var u := Step(p, t, input);
            && u.lastConnected == (if Reaches(t, input) then Some(t.generation) else t.lastConnected)
            && (u.phase.Online? ==> u.generation == t.generation && (t.phase.Online? || Reaches(t, input)))
  {
  }

  lemma {:induction false} LastConnectedIsReached(p: Policy, initial: u64, room: nat, tasks: seq<Task>,
      inputs: seq<Input>, n: nat)
    requires IsRun(p, initial, room, tasks, inputs) && n <= |inputs|
    ensures tasks[n].lastConnected == LastReached(tasks, inputs, n)
    ensures tasks[n].phase.Online? ==> tasks[n].lastConnected == Some(tasks[n].generation)
  {
    if n == 0 {
    } else {
      LastConnectedIsReached(p, initial, room, tasks, inputs, n - 1);
      StepReaches(p, tasks[n - 1], inputs[n - 1]);
    }
  }

  /** In every run a supervisor that is shut down names the last generation that reached its backend. */
  lemma StoppedNamesLast(p: Policy, initial: u64, room: nat, tasks: seq<Task>, inputs: seq<Input>, n: nat)
    requires IsRun(p, initial, room, tasks, inputs) && n <= |inputs|
    requires !tasks[n].phase.Ended? && tasks[n].room > 0
    ensures var t := Step(p, tasks[n], Shutdown);
            t.phase.Ended? && t.trace == tasks[n].trace + [Stopped(LastReached(tasks, inputs, n))]
  {
    LastConnectedIsReached(p, initial, room, tasks, inputs, n);
  }

  /** What each input makes a supervisor announce that has room for it, in the phase that listens to it. */
  ghost function Announces(p: Policy, t: Task, input: Input): Trace {
    match (t.phase, input)
    case (Dialing, ConnectSucceeds) => [Connected(t.generation)]
    case (Dialing, ConnectFails) => Answered(p, t, ConnectionFailed(t.generation))
    case (Dialing, DiscoveryFails) => Answered(p, t, ConnectionFailed(t.generation))
    case (Online, InventoryArrives) => [InventoryChanged(t.generation)]
    case (Online, ConnectionEnds(elapsed)) => Answered(p, t, Disconnected(t.generation, elapsed))
    case (Waiting(next), TimerFires) => [TimerRetry, Connecting(next)]
    case (Waiting(next), Retry) => [ManualRetry, Connecting(next)]
    case (Exhausted, Retry) => if t.generation < U64_MAX then [ManualRetry, Connecting(t.generation + 1)] else []
    case (Ended, _) => []
    case (Online, Shutdown) => [Stopped(Some(t.generation))]
    case (_, Shutdown) => [Stopped(t.lastConnected)]
    case _ => []
  }

  /** A loss and its answer; there is no attempt after the last generation of all. */
  ghost function Answered(p: Policy, t: Task, e: Effect): Trace
    requires Loss(e)
  {
    var losses := Losses(p, t.trace + [e]);
    if losses > p.maxReconnectAttempts then [e, GaveUp(t.generation, p.maxReconnectAttempts)]
    else if t.generation == U64_MAX then [e]
    else [e, Scheduled(t.generation + 1, losses, DelayForAttempt(p, losses))]
  }

  /** In every state of a run with room for two events, an input is announced exactly so. */
  lemma InputsAreAnnounced(p: Policy, initial: u64, room: nat, tasks: seq<Task>, inputs: seq<Input>, n: nat,
      input: Input)
    requires IsRun(p, initial, room, tasks, inputs) && n <= |inputs| && tasks[n].room >= 2
    ensures Step(p, tasks[n], input).trace == tasks[n].trace + Announces(p, tasks[n], input)
  {
    RunInvariant(p, initial, room, tasks, inputs, n);
    StepAnnounces(p, initial, tasks[n], input);
  }

  lemma AwaitAnnounces(p: Policy, t: Task, e: Effect)
    requires t.room >= 2 && Loss(e) && e.generation == t.generation && t.attempts == Losses(p, t.trace)
    requires t.attempts <= p.maxReconnectAttempts
    ensures var u := Emit(t, e);
            AwaitRetry(p, if Stable(p, e) then u.(attempts := 0) else u).trace == t.trace + Answered(p, t, e)
  {
    assert (t.trace + [e])[..|t.trace|] == t.trace;
  }

  lemma StepAnnounces(p: Policy, initial: u64, t: Task, input: Input)
    requires Invariant(p, initial, t) && t.room >= 2
    ensures Step(p, t, input).trace == t.trace + Announces(p, t, input)
  {
    match input {
      case ConnectFails => if t.phase.Dialing? { AwaitAnnounces(p, t, ConnectionFailed(t.generation)); }
      case DiscoveryFails =>
        if t.phase.Dialing? {
          AwaitAnnounces(p, t.(lastConnected := Some(t.generation)), ConnectionFailed(t.generation));
        }
      case ConnectionEnds(elapsed) =>
        if t.phase.Online? { AwaitAnnounces(p, t, Disconnected(t.generation, elapsed)); }
      case _ =>
    }
  }
}
