/** The CEC transport over whole runs of client calls. */
module CecRuns {
  import opened Common
  import opened CecTransport

  /** A transmit is pending exactly while its acceptance is the last thing that happened. */
  ghost predicate Awaits(t: Tracker, trace: Trace) {
    match t.pending
    case None => trace == [] || !trace[|trace| - 1].Accepted?
    case Some(p) =>
      && trace != [] && trace[|trace| - 1].Accepted? && trace[|trace| - 1].pending == p
      && t.binding.Some? && t.binding.value.online && !t.requiresStateAdvance
  }

  /** The generations a binding has seen: the one it was bound with, and the accepted ones. */
  predicate Dates(e: Effect) { e.Bound? || e.Accepted? }

  predicate Breaks(e: Effect) { e.Switched? || e.Suspended? }

  ghost predicate SameBindingSpan(trace: Trace, i: nat, k: nat) {
    i < k <= |trace| && forall m :: i < m < k ==> !trace[m].Bound?
  }

  ghost predicate BreakBetween(trace: Trace, i: nat, k: nat) {
    k <= |trace| && exists m :: i < m < k && Breaks(trace[m])
  }

  /** Generation `g`, accepted at position `k`, is in order with everything its binding has seen. */
  ghost predicate InOrder(trace: Trace, k: nat, g: NonZeroU64) {
    && k <= |trace|
    && forall i: nat {:trigger SameBindingSpan(trace, i, k)} ::
         SameBindingSpan(trace, i, k) && Dates(trace[i]) ==>
           && trace[i].generation <= g
           && (BreakBetween(trace, i, k) || trace[i].Bound? ==> trace[i].generation < g)
  }

  /**
   * Within a binding accepted generations never decrease, and one accepted after the transport was switched or
   * suspended lies above all that came before, and always above the one it was bound with.
   */
  ghost predicate Monotone(trace: Trace) {
    forall k: nat {:trigger trace[k]} :: k < |trace| && trace[k].Accepted? ==> InOrder(trace, k, trace[k].generation)
  }

  /** Every completion answers the acceptance immediately before it. */
  ghost predicate Answers(trace: Trace) {
    forall k :: 0 <= k < |trace| && trace[k].Completed? ==>
        k > 0 && trace[k - 1].Accepted? && trace[k - 1].pending == trace[k].pending
  }

  /** The tracker remembers the newest generation of its binding, and whether the transport was switched since. */
  ghost predicate Remembers(t: Tracker, trace: Trace) {
    t.binding.Some? ==>
      forall i: nat {:trigger SameBindingSpan(trace, i, |trace|)} ::
        SameBindingSpan(trace, i, |trace|) && Dates(trace[i]) ==>
          var date, latest := trace[i].generation, t.binding.value.stateGeneration;
          && date <= latest
          && (BreakBetween(trace, i, |trace|) ==> t.requiresStateAdvance || date < latest)
          && (trace[i].Bound? ==> t.requiresStateAdvance || !t.binding.value.online || date < latest)
  }

  /** Position `i` is where the tracker has its generation from, with a switch since if it waits for a newer one. */
  ghost predicate DatedAt(t: Tracker, trace: Trace, i: nat) {
    && t.binding.Some? && SameBindingSpan(trace, i, |trace|) && Dates(trace[i])
    && trace[i].generation == t.binding.value.stateGeneration
    && (t.requiresStateAdvance ==> BreakBetween(trace, i, |trace|))
  }

  ghost predicate Dated(t: Tracker, trace: Trace) {
    t.binding.Some? ==> exists i: nat :: DatedAt(t, trace, i)
  }

  ghost predicate Invariant(t: Tracker, trace: Trace) {
    && (t.binding.None? ==> t.pending.None? && !t.requiresStateAdvance)
    && Awaits(t, trace) && Answers(trace) && Remembers(t, trace) && Dated(t, trace) && Monotone(trace)
  }

  lemma SpanAppend(trace: Trace, e: Effect, i: nat, k: nat)
    requires k <= |trace|
    ensures SameBindingSpan(trace + [e], i, k) <==> SameBindingSpan(trace, i, k)
    ensures BreakBetween(trace + [e], i, k) <==> BreakBetween(trace, i, k)
  {
    var u := trace + [e];
    assert forall m :: 0 <= m < k ==> u[m] == trace[m];
    if BreakBetween(trace, i, k) {
      var m :| i < m < k && Breaks(trace[m]);
      assert Breaks(u[m]);
    }
    if BreakBetween(u, i, k) {
      var m :| i < m < k && Breaks(u[m]);
      assert Breaks(trace[m]);
    }
  }

  lemma SpanExtend(trace: Trace, e: Effect, i: nat)
    requires i < |trace|
    ensures SameBindingSpan(trace + [e], i, |trace| + 1) <==> SameBindingSpan(trace, i, |trace|) && !e.Bound?
    ensures BreakBetween(trace + [e], i, |trace| + 1) <==> BreakBetween(trace, i, |trace|) || Breaks(e)
  {
    var u, n := trace + [e], |trace|;
    if SameBindingSpan(u, i, n + 1) { assert !u[n].Bound?; assert forall m :: i < m < n ==> trace[m] == u[m]; }
    if BreakBetween(trace, i, n) {
      var m :| i < m < n && Breaks(trace[m]);
      assert Breaks(u[m]);
    }
    if Breaks(e) { assert Breaks(u[n]); }
    if BreakBetween(u, i, n + 1) {
      var m :| i < m < n + 1 && Breaks(u[m]);
      assert m < n ==> Breaks(trace[m]);
    }
  }

  lemma MonotoneAppend(trace: Trace, e: Effect)
    requires Monotone(trace) && (e.Accepted? ==> InOrder(trace, |trace|, e.generation))
    ensures Monotone(trace + [e])
  {
    var u := trace + [e];
    forall k: nat | k < |u| && u[k].Accepted? ensures InOrder(u, k, u[k].generation) {
      assert k < |trace| ==> trace[k] == u[k];
      forall i: nat | SameBindingSpan(u, i, k) && Dates(u[i])
        ensures u[i].generation <= u[k].generation
                  && (BreakBetween(u, i, k) || u[i].Bound? ==> u[i].generation < u[k].generation)
      {
        SpanAppend(trace, e, i, k);
        assert SameBindingSpan(trace, i, k);
      }
    }
  }

  /** What the tracker admits is in order with the binding's history. */
  lemma AdmittedInOrder(t: Tracker, trace: Trace, e: TransmitEvent)
    requires Remembers(t, trace) && t.binding.Some? && t.binding.value.online && e.stateGeneration > 0 && !TooOld(t, e)
    ensures InOrder(trace, |trace|, e.stateGeneration)
  {
  }

  lemma {:induction false} StepKeeps(connector: u32, t: Tracker, trace: Trace, call: Call)
    requires Invariant(t, trace)
    ensures var (u, effects, _) := Apply(connector, t, call); Invariant(u, trace + effects)
  {
    var (u, effects, _) := Apply(connector, t, call);
    if effects == [] {
      assert trace + effects == trace;
    } else {
      var e := effects[0];
      if e.Accepted? { AdmittedInOrder(t, trace, call.transmit); }
      MonotoneAppend(trace, e);
      RemembersAppend(connector, t, trace, call);
      DatedAppend(connector, t, trace, call);
    }
  }

  lemma DatedAppend(connector: u32, t: Tracker, trace: Trace, call: Call)
    requires Invariant(t, trace) && Apply(connector, t, call).1 != []
    ensures var (u, effects, _) := Apply(connector, t, call); Dated(u, trace + effects)
  {
    var (u, effects, _) := Apply(connector, t, call);
    var e, v := effects[0], trace + effects;
    assert v == trace + [e];
    if Dates(e) {
      assert DatedAt(u, v, |trace|);
    } else if u.binding.Some? {
      var i: nat :| DatedAt(t, trace, i);
      SpanExtend(trace, e, i);
      assert DatedAt(u, v, i);
    }
  }

  lemma RemembersAppend(connector: u32, t: Tracker, trace: Trace, call: Call)
    requires Invariant(t, trace) && Apply(connector, t, call).1 != []
    ensures var (u, effects, _) := Apply(connector, t, call); Remembers(u, trace + effects)
  {
    var (u, effects, _) := Apply(connector, t, call);
    var e, v := effects[0], trace + effects;
    assert v == trace + [e];
    if u.binding.Some? {
      forall i: nat | SameBindingSpan(v, i, |v|) && Dates(v[i])
        ensures v[i].generation <= u.binding.value.stateGeneration
        ensures BreakBetween(v, i, |v|) ==> u.requiresStateAdvance || v[i].generation < u.binding.value.stateGeneration
        ensures v[i].Bound? ==>
                  u.requiresStateAdvance || !u.binding.value.online || v[i].generation < u.binding.value.stateGeneration
      {
        if i < |trace| {
          SpanExtend(trace, e, i);
          assert SameBindingSpan(trace, i, |trace|);
        }
      }
    }
  }

  /** The trackers and traces a sequence of client calls leads through. */
  ghost predicate IsRun(connector: u32, trackers: seq<Tracker>, traces: seq<Trace>, calls: seq<Call>) {
    && |trackers| == |traces| == |calls| + 1 && trackers[0] == UNBOUND && traces[0] == []
    && forall i :: 0 <= i < |calls| ==>
         var (t, effects, _) := Apply(connector, trackers[i], calls[i]);
         trackers[i + 1] == t && traces[i + 1] == traces[i] + effects
  }

  lemma {:induction false} RunInvariant(connector: u32, trackers: seq<Tracker>, traces: seq<Trace>, calls: seq<Call>,
      n: nat)
    requires IsRun(connector, trackers, traces, calls) && n <= |calls|
    ensures Invariant(trackers[n], traces[n])
  {
    if n == 0 {
    } else {
      RunInvariant(connector, trackers, traces, calls, n - 1);
      StepKeeps(connector, trackers[n - 1], traces[n - 1], calls[n - 1]);
    }
  }

  /** In every run, at every point: who waits is online, who completes was waiting, and generations move forward. */
  lemma TransportIsGenerationSafe(connector: u32, trackers: seq<Tracker>, traces: seq<Trace>, calls: seq<Call>, n: nat)
    requires IsRun(connector, trackers, traces, calls) && n <= |calls|
    ensures trackers[n].pending.Some? ==> trackers[n].binding.Some? && trackers[n].binding.value.online
    ensures Answers(traces[n]) && Monotone(traces[n])
  {
    RunInvariant(connector, trackers, traces, calls, n);
  }

  /**
   * In every run a completion follows its acceptance at once: nothing lies between the two, no other completion and no
   * suspension, and nothing after it completes the same acceptance again.
   */
  lemma CompletedOnceBeforeSuspension(
    connector: u32, trackers: seq<Tracker>, traces: seq<Trace>, calls: seq<Call>, n: nat, i: nat, k: nat)
    requires IsRun(connector, trackers, traces, calls) && n <= |calls|
    requires i < k < |traces[n]| && traces[n][i].Accepted? && traces[n][k].Completed?
    requires forall m :: i < m < k ==> !traces[n][m].Accepted?
    ensures k == i + 1 && traces[n][k].pending == traces[n][i].pending
    ensures forall m :: k < m < |traces[n]| && traces[n][m].Completed? ==>
              exists j :: k < j < m && traces[n][j].Accepted?
  {
    RunInvariant(connector, trackers, traces, calls, n);
    var trace := traces[n];
    assert trace[k - 1].Accepted?;
    forall m | k < m < |trace| && trace[m].Completed? ensures exists j :: k < j < m && trace[j].Accepted? {
      assert trace[m - 1].Accepted?;
    }
  }

  // ----- What exactly is admitted -----

  /** The transport is ready for a transmit, and `e` is one of its own. */
  ghost predicate Ready(connector: u32, t: Tracker, e: TransmitEvent) {
    && t.binding.Some? && t.binding.value.online && t.pending.None?
    && e.connectorId == connector && SameBinding(t.binding.value, e) && e.stateGeneration > 0 && e.cookie > 0
  }

  ghost predicate Admits(connector: u32, t: Tracker, e: TransmitEvent) { Apply(connector, t, Transmit(e)).1 != [] }

  /** In every run a ready transport admits an event if and only if it is in order with all its binding has seen. */
  lemma AdmittedExactly(
    connector: u32, trackers: seq<Tracker>, traces: seq<Trace>, calls: seq<Call>, n: nat, e: TransmitEvent)
    requires IsRun(connector, trackers, traces, calls) && n <= |calls| && Ready(connector, trackers[n], e)
    ensures Admits(connector, trackers[n], e) <==> InOrder(traces[n], |traces[n]|, e.stateGeneration)
  {
    RunInvariant(connector, trackers, traces, calls, n);
    var t, trace := trackers[n], traces[n];
    if !TooOld(t, e) {
      AdmittedInOrder(t, trace, e);
    } else {
      var i: nat :| DatedAt(t, trace, i);
      assert SameBindingSpan(trace, i, |trace|);
    }
  }

  /** CastKMS advances its own generation whenever the transport is switched or suspended. */
  ghost function KernelGeneration(trace: Trace): nat {
    if trace == [] then 0
    else
      var e := trace[|trace| - 1];
      if e.Bound? then e.generation else KernelGeneration(trace[..|trace| - 1]) + if Breaks(e) then 1 else 0
  }

  /** The kernel's generation grows with every switch or suspension of a binding. */
  lemma {:induction false} KernelAdvances(trace: Trace, m: nat)
    requires 0 < m <= |trace| && forall k :: m <= k < |trace| ==> !trace[k].Bound?
    ensures KernelGeneration(trace) >= KernelGeneration(trace[..m])
    ensures BreakBetween(trace, m - 1, |trace|) ==> KernelGeneration(trace) > KernelGeneration(trace[..m])
  {
    if m == |trace| {
      assert trace[..m] == trace;
    } else {
      var last := |trace| - 1;
      var front := trace[..last];
      assert front[..m] == trace[..m];
      KernelAdvances(front, m);
      assert trace == front + [trace[last]];
      SpanExtend(front, trace[last], m - 1);
    }
  }

  /** The binding in force was bound at position `b`. */
  ghost predicate BoundAt(trace: Trace, b: nat) { SameBindingSpan(trace, b, |trace|) && trace[b].Bound? }

  /** No acceptance of the binding is newer than `g`, and none as new lies before a switch or suspension. */
  ghost predicate NoneAsNew(trace: Trace, b: nat, g: nat) {
    forall i: nat {:trigger trace[i]} :: b < i < |trace| && trace[i].Accepted? ==>
      trace[i].generation <= g && (BreakBetween(trace, i, |trace|) ==> trace[i].generation < g)
  }

  lemma InOrderOfBinding(trace: Trace, b: nat, g: NonZeroU64)
    requires BoundAt(trace, b)
    ensures InOrder(trace, |trace|, g) <==> trace[b].generation < g && NoneAsNew(trace, b, g)
  {
    assert SameBindingSpan(trace, b, |trace|);
    if InOrder(trace, |trace|, g) {
      forall i: nat | b < i < |trace| && trace[i].Accepted?
        ensures trace[i].generation <= g && (BreakBetween(trace, i, |trace|) ==> trace[i].generation < g)
      {
        assert SameBindingSpan(trace, i, |trace|);
      }
    }
    if trace[b].generation < g && NoneAsNew(trace, b, g) {
      forall i: nat | SameBindingSpan(trace, i, |trace|) && Dates(trace[i])
        ensures trace[i].generation <= g
        ensures BreakBetween(trace, i, |trace|) || trace[i].Bound? ==> trace[i].generation < g
      {
        assert i >= b by { assert trace[b].Bound?; }
        assert trace[i].Bound? ==> i == b;
      }
    }
  }

  /**
   * An event raised at position `m`, in an online interval that has ended since, bears a generation the kernel has left
   * behind. It is admitted nevertheless, if and only if its binding has accepted nothing newer, and nothing as new
   * before its last switch or suspension.
   */
  lemma StaleAdmittedExactly(
    connector: u32, trackers: seq<Tracker>, traces: seq<Trace>, calls: seq<Call>, n: nat, b: nat, m: nat,
        e: TransmitEvent)
    requires IsRun(connector, trackers, traces, calls) && n <= |calls| && Ready(connector, trackers[n], e)
    requires BoundAt(traces[n], b) && b < m <= |traces[n]| && e.stateGeneration == KernelGeneration(traces[n][..m])
    requires BreakBetween(traces[n], b, m) && BreakBetween(traces[n], m - 1, |traces[n]|)
    ensures e.stateGeneration < KernelGeneration(traces[n])
    ensures Admits(connector, trackers[n], e) <==> NoneAsNew(traces[n], b, e.stateGeneration)
  {
    var trace := traces[n];
    KernelAdvances(trace, m);
    RaisedAbove(trace, b, m);
    InOrderOfBinding(trace, b, e.stateGeneration);
    AdmittedExactly(connector, trackers, traces, calls, n, e);
  }

  /** What is raised once the transport has been switched lies above the generation it was bound with. */
  lemma RaisedAbove(trace: Trace, b: nat, m: nat)
    requires BoundAt(trace, b) && b < m <= |trace| && BreakBetween(trace, b, m)
    ensures KernelGeneration(trace[..m]) > trace[b].generation
  {
    var front := trace[..m];
    var k :| b < k < m && Breaks(trace[k]);
    assert Breaks(front[k]);
    KernelAdvances(front, b + 1);
    assert front[..b + 1][b] == trace[b] && |front[..b + 1]| == b + 1;
  }

  /**
   * Such an event exists: bound, switched on, off and on again, the transport admits what it was sent the first time.
   */
  lemma UnreadEventAdmitted(connector: u32)
    returns (trackers: seq<Tracker>, traces: seq<Trace>, calls: seq<Call>, e: TransmitEvent)
    ensures IsRun(connector, trackers, traces, calls) && |calls| == 4 && Ready(connector, trackers[4], e)
    ensures traces[4] == [Bound(1, 1, 1, 0), Switched(true), Switched(false), Switched(true)]
    ensures BoundAt(traces[4], 0) && BreakBetween(traces[4], 0, 2) && BreakBetween(traces[4], 1, 4)
    ensures e.stateGeneration == KernelGeneration(traces[4][..2]) < KernelGeneration(traces[4])
    ensures Admits(connector, trackers[4], e)
  {
    var on, off := SetState(true, true), SetState(false, true);
    calls := [Bind(Binding(1, 1, 1, 0, false), true), on, off, on];
    var a := Apply(connector, UNBOUND, calls[0]).0;
    var b := Apply(connector, a, on).0;
    var c := Apply(connector, b, off).0;
    var d := Apply(connector, c, on).0;
    trackers := [UNBOUND, a, b, c, d];
    var bound, up, down := Bound(1, 1, 1, 0), Switched(true), Switched(false);
    traces := [[], [bound], [bound, up], [bound, up, down], [bound, up, down, up]];
    e := TransmitEvent(connector, 1, 1, 2, 0, 1);
    var t := traces[4];
    assert t[..2] == [bound, up] && t[..2][..1] == [bound];
    assert KernelGeneration([bound]) == 1 && KernelGeneration(t[..2]) == 2;
    assert BoundAt(t, 0) && Breaks(t[1]) && Breaks(t[2]) && BreakBetween(t, 0, 2) && BreakBetween(t, 1, 4);
    StaleAdmittedExactly(connector, trackers, traces, calls, 4, 0, 2, e);
  }
}
