/** Backend and host together: every interleaving of scans, restarts, signal delivery and snapshot calls. */
module Replication {
  import opened Common
  import opened Diff
  import opened Protocol
  import opened BackendDiscovery
  import opened HostInventory
  import opened EventLog
  import opened Runs

  datatype Host =
    | Tracking(inventory: Inventory)
    | Fetching(generation: u64, previous: Option<Inventory>, reply: Option<DeviceSnapshot>)
    | Finished

  /** `running` is false once the backend's actor has ended; `logs` holds every event ever sent, by generation. */
  datatype System = System(
    nextGeneration: u64,
    active: Option<ActiveDiscovery>,
    running: bool,
    logs: map<u64, seq<DeviceEvent>>,
    host: Host)

  datatype Step =
    | StartDiscovery
    | StopDiscovery
    | Scan(scan: seq<DeviceRecord>, gone: seq<string>, kept: seq<string>, room: nat)
    | ActorEnds
    | HostOpens
    | Deliver(generation: u64, index: nat)
    | Serve
    | Adopt
    | FetchFails
    | HostCloses

  const START := System(0, None, true, map[], Finished)

  /** The backend after a `StartDiscovery` call. */
  ghost function Started(s: System): System {
    if s.active.Some? || s.nextGeneration == U64_MAX then s
    else s.(nextGeneration := s.nextGeneration + 1,
            active := Some(ActiveDiscovery(s.nextGeneration + 1, 1, map[])),
            logs := s.logs[s.nextGeneration + 1 := []])
  }

  /**
   * One step of the system. A scan that cannot be applied ends the actor. Signals are delivered in any order, any
   * number of times or not at all, and a `ListDevices` reply is taken at one point and adopted at a later one.
   */
  ghost predicate Next(rules: Rules, s: System, step: Step, t: System) {
    match step
    case StartDiscovery => s.running && t == Started(s)
    case StopDiscovery => s.running && s.active.Some? && t == s.(active := None)
    case Scan(scan, gone, kept, room) => s.running && s.active.Some? && ScanNext(rules, s, scan, gone, kept, room, t)
    case ActorEnds => t == s.(running := false)
    case HostOpens =>
      && s.running && s.host.Finished? && Started(s).active.Some?
      && t == Started(s).(host := Fetching(Started(s).active.value.generation, None, None))
    case Deliver(generation, index) => Delivered(rules, s, generation, index, t)
    case Serve =>
      && s.running && s.active.Some? && s.host.Fetching? && s.host.reply.None?
      && t == s.(host := s.host.(reply := Some(SnapshotOf(s.active.value))))
    case Adopt =>
      && s.host.Fetching? && s.host.reply.Some?
      && var fetched := Fetched(rules, CHROMIACAST_BACKEND_ID, s.host.generation, s.host.reply);
         t == s.(host := if fetched.Some? then Tracking(fetched.value) else Finished)
    case FetchFails => s.host.Fetching? && t == s.(host := Finished)
    case HostCloses => t == s.(host := Finished)
  }

  ghost predicate ScanNext(rules: Rules, s: System, scan: seq<DeviceRecord>, gone: seq<string>, kept: seq<string>,
      room: nat, t: System)
    requires s.active.Some?
  {
    var a, next := s.active.value, Indexed(scan, |scan|);
    if !Admissible(rules, scan) then t == s.(running := false)
    else
      && a.generation in s.logs && a.generation in t.logs && Visits(a.devices, next, gone, kept)
      && t == s.(active := t.active, running := t.running, logs := s.logs[a.generation := t.logs[a.generation]])
      && exists r: Result<Unit, DiscoveryActorError> ::
           t.running == r.Ok?
           && PublishOutcome(a, next, ScanChanges(a.devices, next, gone, kept), room, s.logs[a.generation], t.active,
               t.logs[a.generation], r)
  }

  ghost predicate Delivered(rules: Rules, s: System, generation: u64, index: nat, t: System) {
    && s.host.Tracking? && generation in s.logs && index < |s.logs[generation]|
    && var (applied, outcome) := Applied(rules, s.host.inventory, s.logs[generation][index]);
       t == s.(host := if outcome.Ok? then Tracking(applied)
           else Fetching(applied.discoveryGeneration, Some(applied), None))
  }

  ghost predicate BackendInvariant(rules: Rules, s: System) {
    s.running && s.active.Some? ==>
      var a := s.active.value;
      && 1 <= a.generation <= s.nextGeneration && a.generation in s.logs
      && a.revision == |s.logs[a.generation]| + 1
      && ValidRecords(rules, a.devices)
      && At(s.logs[a.generation], a.revision) == Viewed(a.devices, InfoOf)
  }

  ghost predicate LogsInvariant(rules: Rules, s: System) {
    forall g :: g in s.logs ==> 1 <= g <= s.nextGeneration && Genuine(rules, g, s.logs[g])
  }

  ghost predicate Consistent(logs: map<u64, seq<DeviceEvent>>, inventory: Inventory) {
    inventory.discoveryGeneration in logs
    && Faithful(inventory.discoveryGeneration, logs[inventory.discoveryGeneration], inventory)
  }

  ghost predicate HostInvariant(rules: Rules, logs: map<u64, seq<DeviceEvent>>, host: Host) {
    match host
    case Tracking(inventory) => Consistent(logs, inventory)
    case Fetching(generation, previous, reply) =>
      && generation in logs
      && (previous.Some? ==> previous.value.discoveryGeneration == generation && Consistent(logs, previous.value))
      && (reply.Some? ==>
            && reply.value.discoveryGeneration in logs
            && GenuineSnapshot(rules, reply.value.discoveryGeneration, logs[reply.value.discoveryGeneration],
                reply.value)
            && (reply.value.discoveryGeneration == generation && previous.Some? ==>
                reply.value.revision >= previous.value.revision))
    case Finished => true
  }

  ghost predicate Invariant(rules: Rules, s: System) {
    BackendInvariant(rules, s) && LogsInvariant(rules, s) && HostInvariant(rules, s.logs, s.host)
  }

  // ----- Logs only grow -----

  ghost predicate Grows(logs: map<u64, seq<DeviceEvent>>, longer: map<u64, seq<DeviceEvent>>) {
    forall g :: g in logs ==> g in longer && logs[g] <= longer[g]
  }

  lemma FaithfulGrows(generation: u64, log: seq<DeviceEvent>, longer: seq<DeviceEvent>, inventory: Inventory)
    requires log <= longer && Faithful(generation, log, inventory)
    ensures Faithful(generation, longer, inventory)
  {
    AtPrefix(log, longer, inventory.revision);
  }

  lemma SnapshotGrows(rules: Rules, generation: u64, log: seq<DeviceEvent>, longer: seq<DeviceEvent>,
      snapshot: DeviceSnapshot)
    requires log <= longer && GenuineSnapshot(rules, generation, log, snapshot)
    ensures GenuineSnapshot(rules, generation, longer, snapshot)
  {
    AtPrefix(log, longer, snapshot.revision);
  }

  lemma HostGrows(rules: Rules, logs: map<u64, seq<DeviceEvent>>, longer: map<u64, seq<DeviceEvent>>, host: Host)
    requires Grows(logs, longer) && HostInvariant(rules, logs, host)
    ensures HostInvariant(rules, longer, host)
  {
    match host
    case Tracking(inventory) =>
      var g := inventory.discoveryGeneration;
      FaithfulGrows(g, logs[g], longer[g], inventory);
    case Fetching(generation, previous, reply) =>
      if previous.Some? { FaithfulGrows(generation, logs[generation], longer[generation], previous.value); }
      if reply.Some? {
        var g := reply.value.discoveryGeneration;
        SnapshotGrows(rules, g, logs[g], longer[g], reply.value);
      }
    case Finished =>
  }

  // ----- Each step keeps the invariant -----

  lemma StartKeeps(rules: Rules, s: System)
    requires rules.Coherent() && s.running && Invariant(rules, s)
    ensures Invariant(rules, Started(s)) && Grows(s.logs, Started(s).logs)
  {
    if s.active.None? && s.nextGeneration < U64_MAX {
      var t := Started(s);
      assert s.nextGeneration + 1 !in s.logs;
      HostGrows(rules, s.logs, t.logs, s.host);
      assert Viewed(t.active.value.devices, InfoOf) == map[];
    }
  }

  /** The first `n` changes extend the log genuinely, and all of them lead to `target`. */
  ghost predicate ExtendsBy(
    rules: Rules, generation: u64, log: seq<DeviceEvent>, changes: seq<Change>, target: Infos, n: nat)
    requires n <= |changes| && |log| + 1 + n <= U64_MAX
  {
    var longer := log + Numbered(generation, |log| + 1, changes[..n]);
    Genuine(rules, generation, longer) && (n == |changes| ==> At(longer, |longer| + 1) == target)
  }

  ghost predicate Extendable(
    rules: Rules, generation: u64, log: seq<DeviceEvent>, changes: seq<Change>, target: Infos)
  {
    forall n: nat :: n <= |changes| && |log| + 1 + n <= U64_MAX ==>
      ExtendsBy(rules, generation, log, changes, target, n)
  }

  /** The log is longer and genuine; after a successful scan, log and inventory meet again. */
  ghost predicate Advanced(rules: Rules, generation: u64, log: seq<DeviceEvent>, longer: seq<DeviceEvent>,
                           now: Option<ActiveDiscovery>, ok: bool)
  {
    && log <= longer && Genuine(rules, generation, longer)
    && (ok ==> now.Some? && now.value.generation == generation && now.value.revision == |longer| + 1
               && ValidRecords(rules, now.value.devices)
                   && At(longer, |longer| + 1) == Viewed(now.value.devices, InfoOf))
  }

  lemma PublishAdvances(
    rules: Rules, a: ActiveDiscovery, next: Records, changes: seq<Change>, room: nat, log: seq<DeviceEvent>,
    now: Option<ActiveDiscovery>, longer: seq<DeviceEvent>, r: Result<Unit, DiscoveryActorError>)
    requires a.revision == |log| + 1 && ValidRecords(rules, next)
    requires Extendable(rules, a.generation, log, changes, Viewed(next, InfoOf))
    requires PublishOutcome(a, next, changes, room, log, now, longer, r)
    ensures Advanced(rules, a.generation, log, longer, now, r.Ok?)
  {
    var n := if r.Ok? then |changes| else Min(U64_MAX - a.revision, room);
    assert changes[..|changes|] == changes;
    assert longer == log + Numbered(a.generation, |log| + 1, changes[..n]);
    assert ExtendsBy(rules, a.generation, log, changes, Viewed(next, InfoOf), n);
  }

  lemma ScanExtendable(rules: Rules, generation: u64, log: seq<DeviceEvent>, prior: Records, next: Records,
                       gone: seq<string>, kept: seq<string>)
    requires rules.Coherent() && Genuine(rules, generation, log)
    requires ValidRecords(rules, prior) && ValidRecords(rules, next) && Visits(prior, next, gone, kept)
    requires At(log, |log| + 1) == Viewed(prior, InfoOf)
    ensures Extendable(rules, generation, log, ScanChanges(prior, next, gone, kept), Viewed(next, InfoOf))
  {
    var changes := ScanChanges(prior, next, gone, kept);
    forall n: nat | n <= |changes| && |log| + 1 + n <= U64_MAX
      ensures ExtendsBy(rules, generation, log, changes, Viewed(next, InfoOf), n)
    {
      ScanExtends(rules, generation, log, prior, next, gone, kept, n);
    }
  }

  lemma ScanAdvances(rules: Rules, s: System, scan: seq<DeviceRecord>, gone: seq<string>, kept: seq<string>,
      room: nat, t: System)
    requires rules.Coherent() && BackendInvariant(rules, s) && s.running && s.active.Some?
    requires Genuine(rules, s.active.value.generation, s.logs[s.active.value.generation])
    requires Admissible(rules, scan) && ScanNext(rules, s, scan, gone, kept, room, t)
    ensures var g := s.active.value.generation;
            Advanced(rules, g, s.logs[g], t.logs[g], t.active, t.running)
  {
    var a, next := s.active.value, Indexed(scan, |scan|);
    IndexedValid(rules, scan);
    ScanExtendable(rules, a.generation, s.logs[a.generation], a.devices, next, gone, kept);
    var changes := ScanChanges(a.devices, next, gone, kept);
    var r: Result<Unit, DiscoveryActorError> :| t.running == r.Ok?
        && PublishOutcome(a, next, changes, room, s.logs[a.generation], t.active, t.logs[a.generation], r);
    PublishAdvances(rules, a, next, changes, room, s.logs[a.generation], t.active, t.logs[a.generation], r);
  }

  lemma LogExtended(rules: Rules, s: System, t: System, generation: u64, longer: seq<DeviceEvent>)
    requires LogsInvariant(rules, s) && HostInvariant(rules, s.logs, s.host) && generation in s.logs
    requires s.logs[generation] <= longer && Genuine(rules, generation, longer)
    requires t.logs == s.logs[generation := longer] && t.nextGeneration == s.nextGeneration && t.host == s.host
    ensures LogsInvariant(rules, t) && HostInvariant(rules, t.logs, t.host) && Grows(s.logs, t.logs)
  {
    HostGrows(rules, s.logs, t.logs, s.host);
  }

  lemma ScanKeeps(rules: Rules, s: System, scan: seq<DeviceRecord>, gone: seq<string>, kept: seq<string>, room: nat,
      t: System)
    requires rules.Coherent() && Invariant(rules, s) && s.running && s.active.Some?
    requires ScanNext(rules, s, scan, gone, kept, room, t)
    ensures Invariant(rules, t) && Grows(s.logs, t.logs)
  {
    if Admissible(rules, scan) {
      var g := s.active.value.generation;
      ScanAdvances(rules, s, scan, gone, kept, room, t);
      LogExtended(rules, s, t, g, t.logs[g]);
    }
  }

  lemma DeliverKeeps(rules: Rules, s: System, generation: u64, index: nat, t: System)
    requires Invariant(rules, s) && Delivered(rules, s, generation, index, t)
    ensures Invariant(rules, t)
    ensures var before := s.host.inventory;
            t.host.Tracking? ==>
                t.host.inventory.discoveryGeneration == before.discoveryGeneration
                    && t.host.inventory.revision >= before.revision
  {
    var inventory := s.host.inventory;
    var g := inventory.discoveryGeneration;
    if generation == g {
      ApplyGenuine(rules, g, s.logs[g], inventory, index);
    } else {
      ApplyStale(rules, g, s.logs[g], inventory, generation, s.logs[generation], index);
    }
  }

  lemma ServeKeeps(rules: Rules, s: System, t: System)
    requires Invariant(rules, s) && Next(rules, s, Serve, t)
    ensures Invariant(rules, t)
  {
    var a := s.active.value;
    SnapshotGenuine(rules, s.logs[a.generation], a);
  }

  lemma StepKeeps(rules: Rules, s: System, step: Step, t: System)
    requires rules.Coherent() && Invariant(rules, s) && Next(rules, s, step, t)
    ensures Invariant(rules, t) && Grows(s.logs, t.logs)
  {
    match step
    case StartDiscovery => StartKeeps(rules, s);
    case StopDiscovery =>
    case Scan(scan, gone, kept, room) => ScanKeeps(rules, s, scan, gone, kept, room, t);
    case ActorEnds =>
    case HostOpens => StartKeeps(rules, s);
    case Deliver(generation, index) => DeliverKeeps(rules, s, generation, index, t);
    case Serve => ServeKeeps(rules, s, t);
    case Adopt =>
    case FetchFails =>
    case HostCloses =>
  }

  // ----- Runs -----

  ghost function Steps(rules: Rules): (System, Step, System) -> bool {
    (s, step, t) => Next(rules, s, step, t)
  }

  ghost predicate IsRun(rules: Rules, states: seq<System>, steps: seq<Step>) {
    Follows(Steps(rules), states, steps) && states[0] == START
  }

  lemma RunKeeps(rules: Rules, states: seq<System>, steps: seq<Step>, n: nat)
    requires rules.Coherent() && IsRun(rules, states, steps) && n <= |steps|
    ensures Invariant(rules, states[n])
  {
    var inv := (s: System) => Invariant(rules, s);
    forall s, step, t | inv(s) && Steps(rules)(s, step, t) ensures inv(t) {
      StepKeeps(rules, s, step, t);
    }
    Preserved(Steps(rules), states, steps, s => true, inv, 0, n);
  }

  /** Safety: at every point of every run the host's inventory is the backend's own inventory at the host's revision. */
  lemma ReplicaIsHistorical(rules: Rules, states: seq<System>, steps: seq<Step>, n: nat)
    requires rules.Coherent() && IsRun(rules, states, steps) && n <= |steps| && states[n].host.Tracking?
    ensures var s, inventory := states[n], states[n].host.inventory;
            && inventory.discoveryGeneration in s.logs
            && 1 <= inventory.revision <= |s.logs[inventory.discoveryGeneration]| + 1
            && inventory.devices == Lift(At(s.logs[inventory.discoveryGeneration], inventory.revision))
  {
    RunKeeps(rules, states, steps, n);
  }

  /**
   * No delivery is ever refused as a conflict, an impossible change or an invalid record; only gaps and stale
   * generations are.
   */
  lemma OnlyGapsResynchronize(rules: Rules, states: seq<System>, steps: seq<Step>, n: nat)
    requires rules.Coherent() && IsRun(rules, states, steps) && n < |steps| && steps[n].Deliver?
    requires states[n].host.Tracking? && steps[n].generation in states[n].logs
               && steps[n].index < |states[n].logs[steps[n].generation]|
    ensures var s, event := states[n], states[n].logs[steps[n].generation][steps[n].index];
            var inventory := s.host.inventory;
            var outcome := Applied(rules, inventory, event).1;
            if event.discoveryGeneration != inventory.discoveryGeneration
            then outcome == Err(GenerationMismatch(inventory.discoveryGeneration, event.discoveryGeneration))
            else if event.revision > inventory.revision + 1 then
                outcome == Err(RevisionGap(inventory.revision + 1, event.revision))
            else outcome.Ok? && (outcome.value.Updated? <==> event.revision == inventory.revision + 1)
  {
    RunKeeps(rules, states, steps, n);
    var s, step := states[n], steps[n];
    var g := s.host.inventory.discoveryGeneration;
    if step.generation == g {
      ApplyGenuine(rules, g, s.logs[g], s.host.inventory, step.index);
    } else {
      ApplyStale(rules, g, s.logs[g], s.host.inventory, step.generation, s.logs[step.generation], step.index);
    }
  }

  /** The host is at or beyond a revision of a generation, or will be as soon as it tracks that generation again. */
  ghost predicate Reaches(s: System, generation: u64, revision: u64) {
    && generation in s.logs && revision <= |s.logs[generation]| + 1
    && match s.host
       case Tracking(inventory) => inventory.discoveryGeneration == generation && inventory.revision >= revision
       case Fetching(wanted, previous, reply) =>
         wanted == generation
         && (reply.Some? && reply.value.discoveryGeneration == generation ==> reply.value.revision >= revision)
       case Finished => false
  }

  lemma ReachesGrows(s: System, t: System, generation: u64, revision: u64)
    requires Reaches(s, generation, revision) && Grows(s.logs, t.logs) && t.host == s.host
    ensures Reaches(t, generation, revision)
  {
  }

  lemma DeliverStays(rules: Rules, s: System, g: u64, index: nat, t: System, generation: u64, revision: u64)
    requires Invariant(rules, s) && Delivered(rules, s, g, index, t) && Reaches(s, generation, revision)
    ensures Reaches(t, generation, revision)
  {
    DeliverKeeps(rules, s, g, index, t);
  }

  lemma ServeReaches(rules: Rules, s: System, t: System, generation: u64, revision: u64)
    requires BackendInvariant(rules, s) && Next(rules, s, Serve, t) && Reaches(s, generation, revision)
    ensures Reaches(t, generation, revision)
  {
  }

  lemma AdoptReaches(rules: Rules, s: System, t: System, generation: u64, revision: u64)
    requires Next(rules, s, Adopt, t) && Reaches(s, generation, revision)
    ensures t.host.Finished? || Reaches(t, generation, revision)
  {
  }

  lemma StepReaches(rules: Rules, s: System, step: Step, t: System, generation: u64, revision: u64)
    requires rules.Coherent() && Invariant(rules, s) && Next(rules, s, step, t) && Reaches(s, generation, revision)
    ensures t.host.Finished? || Reaches(t, generation, revision)
  {
    match step {
      case Deliver(g, index) => DeliverStays(rules, s, g, index, t, generation, revision);
      case Serve => ServeReaches(rules, s, t, generation, revision);
      case Adopt => AdoptReaches(rules, s, t, generation, revision);
      case HostOpens =>
      case FetchFails =>
      case HostCloses =>
      case StartDiscovery =>
        StepKeeps(rules, s, step, t);
        ReachesGrows(s, t, generation, revision);
      case Scan(_, _, _, _) =>
        StepKeeps(rules, s, step, t);
        ReachesGrows(s, t, generation, revision);
      case StopDiscovery =>
      case ActorEnds =>
    }
  }

  /** The host's monitor is up. */
  ghost predicate Attached(s: System) { !s.host.Finished? }

  lemma RunReaches(rules: Rules, states: seq<System>, steps: seq<Step>, first: nat, last: nat, generation: u64,
      revision: u64)
    requires rules.Coherent() && IsRun(rules, states, steps)
    requires Throughout(states, first, last, Attached) && Reaches(states[first], generation, revision)
    ensures Reaches(states[last], generation, revision)
  {
    var up, inv := Attached, (s: System) => Invariant(rules, s) && Reaches(s, generation, revision);
    forall s, step, t | inv(s) && up(s) && Steps(rules)(s, step, t) && up(t) ensures inv(t) {
      StepKeeps(rules, s, step, t);
      StepReaches(rules, s, step, t, generation, revision);
    }
    RunKeeps(rules, states, steps, first);
    Preserved(Steps(rules), states, steps, up, inv, first, last);
  }

  /** Within one host session the replica never goes back to an older revision, not even across resynchronizations. */
  lemma RevisionNeverDecreases(rules: Rules, states: seq<System>, steps: seq<Step>, first: nat, last: nat)
    requires rules.Coherent() && IsRun(rules, states, steps) && Throughout(states, first, last, Attached)
    requires states[first].host.Tracking? && states[last].host.Tracking?
    ensures states[last].host.inventory.discoveryGeneration == states[first].host.inventory.discoveryGeneration
    ensures states[last].host.inventory.revision >= states[first].host.inventory.revision
  {
    RunKeeps(rules, states, steps, first);
    var inventory := states[first].host.inventory;
    RunReaches(rules, states, steps, first, last, inventory.discoveryGeneration, inventory.revision);
  }

  lemma DeliverReaches(rules: Rules, s: System, generation: u64, index: nat, t: System)
    requires rules.Coherent() && Invariant(rules, s) && Delivered(rules, s, generation, index, t)
    requires s.host.inventory.discoveryGeneration == generation
    ensures Reaches(t, generation, s.logs[generation][index].revision)
  {
    ApplyGenuine(rules, generation, s.logs[generation], s.host.inventory, index);
  }

  /**
   * Convergence: once the newest event of the generation has been delivered, whatever became of the others, a host that
   * is tracking again holds exactly the backend's inventory, and lists it in the same order.
   */
  lemma Converges(rules: Rules, states: seq<System>, steps: seq<Step>, first: nat, last: nat)
    requires rules.Coherent() && IsRun(rules, states, steps) && first < last
               && Throughout(states, first, last, Attached)
    requires steps[first].Deliver? && states[first].host.Tracking?
               && states[first].host.inventory.discoveryGeneration == steps[first].generation
    requires states[last].host.Tracking? && states[last].running && states[last].active.Some?
    requires states[last].active.value.generation == steps[first].generation
    requires steps[first].index + 2 == states[last].active.value.revision
    ensures var inventory, active := states[last].host.inventory, states[last].active.value;
            && inventory.discoveryGeneration == active.generation
            && inventory.revision == active.revision
            && inventory.devices == Lift(Viewed(active.devices, InfoOf))
            && Listing(inventory.devices) == SnapshotOf(active).devices
  {
    var g, active := steps[first].generation, states[last].active.value;
    RunKeeps(rules, states, steps, first);
    RunKeeps(rules, states, steps, last);
    DeliverReaches(rules, states[first], g, steps[first].index, states[first + 1]);
    RunReaches(rules, states, steps, first + 1, last, g, active.revision);
    SnapshotGenuine(rules, states[last].logs[g], active);
  }
}
