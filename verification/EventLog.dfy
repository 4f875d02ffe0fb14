/** The events of one discovery generation as a log, and the inventory at each of its revisions. */
module EventLog {
  import opened Common
  import opened Diff
  import opened Ordering
  import opened Protocol
  import opened BackendDiscovery
  import opened HostInventory

  ghost function EditOf(change: Change): Edit<string, DeviceInfo> {
    match change
    case Added(info) => Insert(info.deviceId, info)
    case Changed(info) => Replace(info.deviceId, info)
    case Removed(identity) => Delete(identity.deviceId)
  }

  ghost function EditsOf(log: seq<DeviceEvent>): (edits: seq<Edit<string, DeviceInfo>>)
    ensures |edits| == |log|
    ensures forall i :: 0 <= i < |log| ==> edits[i] == EditOf(log[i].change)
  {
    seq(|log|, i requires 0 <= i < |log| => EditOf(log[i].change))
  }

  /** The backend's inventory at a revision of its log; the empty baseline is revision one. */
  ghost function At(log: seq<DeviceEvent>, revision: u64): Infos
    requires 1 <= revision <= |log| + 1
  {
    PatchAll(map[], EditsOf(log[..revision - 1]))
  }

  /** An inventory keyed the way the host keys it. */
  ghost function Lift(infos: Infos): map<Key, DeviceInfo> {
    map k | k in HostKeys(infos.Keys) && k.1 in infos :: infos[k.1]
  }

  ghost function HostKeys(ids: set<string>): set<Key> {
    set id | id in ids :: (CHROMIACAST_BACKEND_ID, id)
  }

  /** A change about a device of this backend that passes the host's record checks. */
  ghost predicate ValidChange(rules: Rules, change: Change) {
    change.Valid(rules) && change.Key().0 == CHROMIACAST_BACKEND_ID
  }

  ghost predicate Genuine(rules: Rules, generation: u64, log: seq<DeviceEvent>) {
    && |log| + 1 <= U64_MAX
    && (forall i :: 0 <= i < |log| ==> log[i].discoveryGeneration == generation && log[i].revision == i + 2)
    && (forall i :: 0 <= i < |log| ==> ValidChange(rules, log[i].change))
    && AllApplicable(map[], EditsOf(log))
  }

  /** The replica is the backend's inventory at the replica's revision. */
  ghost predicate Faithful(generation: u64, log: seq<DeviceEvent>, inventory: Inventory) {
    && inventory.expectedBackendId == CHROMIACAST_BACKEND_ID
    && inventory.discoveryGeneration == generation
    && 1 <= inventory.baselineRevision <= inventory.revision <= |log| + 1
    && inventory.devices == Lift(At(log, inventory.revision))
    && inventory.lastApplied == if inventory.revision == inventory.baselineRevision then None
        else Some(log[inventory.revision - 2])
  }

  lemma AtNext(log: seq<DeviceEvent>, revision: u64)
    requires 1 <= revision <= |log| && revision < U64_MAX
    ensures At(log, revision + 1) == Patch(At(log, revision), EditOf(log[revision - 1].change))
    ensures AllApplicable(map[], EditsOf(log)) ==> Applicable(At(log, revision), EditOf(log[revision - 1].change))
  {
    var edits := EditsOf(log);
    assert EditsOf(log[..revision - 1]) == edits[..revision - 1];
    assert EditsOf(log[..revision]) == edits[..revision];
    assert edits[..revision][..revision - 1] == edits[..revision - 1];
    if AllApplicable(map[], edits) { AllApplicablePrefix(map[], edits, revision - 1); }
  }

  lemma AtPrefix(log: seq<DeviceEvent>, longer: seq<DeviceEvent>, revision: u64)
    requires log <= longer && 1 <= revision <= |log| + 1
    ensures At(log, revision) == At(longer, revision)
  {
    assert longer[..revision - 1] == log[..revision - 1];
  }

  lemma LiftPatch(infos: Infos, change: Change)
    requires change.Key().0 == CHROMIACAST_BACKEND_ID
    ensures change.Key() in Lift(infos) <==> EditOf(change).key in infos
    ensures Lift(Patch(infos, EditOf(change)))
            == if change.Removed? then Without(Lift(infos), change.Key()) else Lift(infos)[change.Key() := change.info]
  {
  }

  /** The next revision is applied. */
  lemma ApplyNext(rules: Rules, generation: u64, log: seq<DeviceEvent>, inventory: Inventory)
    requires Genuine(rules, generation, log) && Faithful(generation, log, inventory) && inventory.revision <= |log|
    ensures var (applied, outcome) := Applied(rules, inventory, log[inventory.revision - 1]);
            && outcome == Ok(Updated)
            && applied ==
                inventory.(revision := inventory.revision + 1, lastApplied := Some(log[inventory.revision - 1]),
                                     devices := Lift(At(log, inventory.revision + 1)))
  {
    var event := log[inventory.revision - 1];
    assert ValidChange(rules, event.change);
    AtNext(log, inventory.revision);
    LiftPatch(At(log, inventory.revision), event.change);
  }

  /** Older revisions are ignored. */
  lemma ApplyOld(rules: Rules, generation: u64, log: seq<DeviceEvent>, inventory: Inventory, k: nat)
    requires Genuine(rules, generation, log) && Faithful(generation, log, inventory) && k < |log|
    requires log[k].revision <= inventory.revision
    ensures var (applied, outcome) := Applied(rules, inventory, log[k]);
            applied == inventory && outcome.Ok? && !outcome.value.Updated?
  {
    assert ValidChange(rules, log[k].change);
  }

  /** Later revisions are gaps. */
  lemma ApplyLater(rules: Rules, generation: u64, log: seq<DeviceEvent>, inventory: Inventory, k: nat)
    requires Genuine(rules, generation, log) && Faithful(generation, log, inventory) && k < |log|
    requires log[k].revision > inventory.revision + 1
    ensures Applied(rules, inventory, log[k]) == (inventory, Err(RevisionGap(inventory.revision + 1, log[k].revision)))
  {
    assert ValidChange(rules, log[k].change);
  }

  /**
   * What the host makes of a genuine event of its generation, exactly: the next revision is applied, older ones are
   * ignored and later ones are gaps. No genuine event is a conflict, an impossible change or an invalid record.
   */
  lemma ApplyGenuine(rules: Rules, generation: u64, log: seq<DeviceEvent>, inventory: Inventory, k: nat)
    requires Genuine(rules, generation, log) && Faithful(generation, log, inventory) && k < |log|
    ensures var (applied, outcome) := Applied(rules, inventory, log[k]);
            && Faithful(generation, log, applied)
            && applied.revision ==
                (if log[k].revision == inventory.revision + 1 then log[k].revision else inventory.revision)
            && (log[k].revision <= inventory.revision ==>
                outcome in {Ok(IgnoredCoveredBySnapshot), Ok(IgnoredDuplicate)})
            && (log[k].revision == inventory.revision + 1 ==> outcome == Ok(Updated))
            && (log[k].revision > inventory.revision + 1 ==>
                outcome == Err(RevisionGap(inventory.revision + 1, log[k].revision)))
  {
    if log[k].revision <= inventory.revision {
      ApplyOld(rules, generation, log, inventory, k);
    } else if log[k].revision == inventory.revision + 1 {
      ApplyNext(rules, generation, log, inventory);
    } else {
      ApplyLater(rules, generation, log, inventory, k);
    }
  }

  /** A genuine event of another generation only asks for a snapshot. */
  lemma ApplyStale(rules: Rules, generation: u64, log: seq<DeviceEvent>, inventory: Inventory, other: u64,
      foreign: seq<DeviceEvent>, k: nat)
    requires Faithful(generation, log, inventory) && Genuine(rules, other, foreign) && k < |foreign|
               && other != generation
    ensures Applied(rules, inventory, foreign[k]) == (inventory, Err(GenerationMismatch(generation, other)))
  {
    assert ValidChange(rules, foreign[k].change);
  }

  // ----- Scans extend the log -----

  lemma ScanEditValues(prior: Records, next: Records, gone: seq<string>, kept: seq<string>)
    requires Filed(next) && Visits(prior, next, gone, kept)
    ensures var edits, changes := ScanEdits(prior, next, gone, kept), ScanChanges(prior, next, gone, kept);
            forall i :: 0 <= i < |edits| ==> EditOf(changes[i]) == edits[i]
  {
  }

  lemma ScanChangesValid(rules: Rules, prior: Records, next: Records, gone: seq<string>, kept: seq<string>)
    requires rules.Coherent() && ValidRecords(rules, prior) && ValidRecords(rules, next)
               && Visits(prior, next, gone, kept)
    ensures var changes := ScanChanges(prior, next, gone, kept);
            forall i :: 0 <= i < |changes| ==> ValidChange(rules, changes[i])
  {
    var edits := ScanEdits(prior, next, gone, kept);
    forall i | 0 <= i < |edits| ensures ValidChange(rules, WireChange(edits[i])) {
      EditSource(prior, next, gone, kept, i);
      if edits[i].Delete? {
        assert prior[edits[i].key].Valid(rules)
            && prior[edits[i].key].info.Identity() == DeviceIdentity(CHROMIACAST_BACKEND_ID, edits[i].key);
      } else {
        assert next[edits[i].key].Valid(rules);
      }
    }
  }

  lemma EditSource(prior: Records, next: Records, gone: seq<string>, kept: seq<string>, i: nat)
    requires forall j :: 0 <= j < |gone| ==> gone[j] in prior
    requires forall j :: 0 <= j < |kept| ==> kept[j] in next
    requires i < |DiffEdits(prior, next, InfoOf, gone, kept)|
    ensures var e := DiffEdits(prior, next, InfoOf, gone, kept)[i];
            if e.Delete? then e.key in prior else e.key in next && e.value == next[e.key].info
  {
  }

  /** The inventory a whole log leads to. */
  lemma AtEnd(log: seq<DeviceEvent>)
    requires |log| + 1 <= U64_MAX
    ensures At(log, |log| + 1) == PatchAll(map[], EditsOf(log))
  {
    assert log[..|log|] == log;
  }

  lemma EditsOfLonger(log: seq<DeviceEvent>, events: seq<DeviceEvent>, edits: seq<Edit<string, DeviceInfo>>)
    requires |events| == |edits| && forall i :: 0 <= i < |events| ==> EditOf(events[i].change) == edits[i]
    ensures EditsOf(log + events) == EditsOf(log) + edits
  {
  }

  /** Events that are numbered on, valid and applicable extend a genuine log. */
  lemma EventsExtend(rules: Rules, generation: u64, log: seq<DeviceEvent>, events: seq<DeviceEvent>)
    requires Genuine(rules, generation, log) && |log| + 1 + |events| <= U64_MAX
    requires forall i :: 0 <= i < |events| ==>
               && events[i].discoveryGeneration == generation && events[i].revision == |log| + 2 + i
               && ValidChange(rules, events[i].change)
    requires AllApplicable(map[], EditsOf(log + events))
    ensures Genuine(rules, generation, log + events)
  {
    var longer := log + events;
    forall i | 0 <= i < |longer|
      ensures longer[i].discoveryGeneration == generation && longer[i].revision == i + 2
      ensures ValidChange(rules, longer[i].change)
    {
      assert longer[i] == if i < |log| then log[i] else events[i - |log|];
    }
  }

  /** Numbered changes that are valid and applicable extend a genuine log. */
  lemma GenuineExtends(rules: Rules, generation: u64, log: seq<DeviceEvent>, changes: seq<Change>,
                       edits: seq<Edit<string, DeviceInfo>>)
    requires Genuine(rules, generation, log)
    requires |changes| == |edits| && |log| + 1 + |changes| <= U64_MAX
    requires forall i :: 0 <= i < |changes| ==> ValidChange(rules, changes[i]) && EditOf(changes[i]) == edits[i]
    requires AllApplicable(At(log, |log| + 1), edits)
    ensures var longer := log + Numbered(generation, |log| + 1, changes);
            Genuine(rules, generation, longer) && At(longer, |longer| + 1) == PatchAll(At(log, |log| + 1), edits)
  {
    var events := Numbered(generation, |log| + 1, changes);
    AtEnd(log);
    EditsOfLonger(log, events, edits);
    AllApplicableConcat(map[], EditsOf(log), edits);
    EventsExtend(rules, generation, log, events);
    AtEnd(log + events);
    PatchAllConcat(map[], EditsOf(log), edits);
  }

  /**
   * Sending the first `n` changes of a scan keeps the log genuine; sending all of them reaches the scanned inventory.
   */
  lemma ScanExtends(rules: Rules, generation: u64, log: seq<DeviceEvent>, prior: Records, next: Records,
                    gone: seq<string>, kept: seq<string>, n: nat)
    requires rules.Coherent() && Genuine(rules, generation, log)
    requires ValidRecords(rules, prior) && ValidRecords(rules, next) && Visits(prior, next, gone, kept)
    requires At(log, |log| + 1) == Viewed(prior, InfoOf)
    requires n <= |ScanChanges(prior, next, gone, kept)| && |log| + 1 + n <= U64_MAX
    ensures var changes := ScanChanges(prior, next, gone, kept);
            var longer := log + Numbered(generation, |log| + 1, changes[..n]);
            && Genuine(rules, generation, longer)
            && (n == |changes| ==> At(longer, |longer| + 1) == Viewed(next, InfoOf))
  {
    ReplayScan(prior, next, gone, kept);
    ScanEditValues(prior, next, gone, kept);
    ScanChangesValid(rules, prior, next, gone, kept);
    PrefixExtends(rules, generation, log, ScanChanges(prior, next, gone, kept), ScanEdits(prior, next, gone, kept), n);
  }

  lemma PrefixExtends(rules: Rules, generation: u64, log: seq<DeviceEvent>, changes: seq<Change>,
      edits: seq<Edit<string, DeviceInfo>>, n: nat)
    requires Genuine(rules, generation, log)
    requires n <= |changes| == |edits| && |log| + 1 + n <= U64_MAX
    requires forall i :: 0 <= i < |changes| ==> ValidChange(rules, changes[i])
    requires forall i :: 0 <= i < |edits| ==> EditOf(changes[i]) == edits[i]
    requires AllApplicable(At(log, |log| + 1), edits)
    ensures var longer := log + Numbered(generation, |log| + 1, changes[..n]);
            && Genuine(rules, generation, longer)
            && (n == |changes| ==> At(longer, |longer| + 1) == PatchAll(At(log, |log| + 1), edits))
  {
    AllApplicablePrefix(At(log, |log| + 1), edits, n);
    GenuineExtends(rules, generation, log, changes[..n], edits[..n]);
    assert edits[..|edits|] == edits;
  }

  // ----- Snapshots are genuine -----

  /** A snapshot of the log at its own revision, listed the way the host would list it. */
  ghost predicate GenuineSnapshot(rules: Rules, generation: u64, log: seq<DeviceEvent>, snapshot: DeviceSnapshot) {
    && snapshot.discoveryGeneration == generation
    && 1 <= snapshot.revision <= |log| + 1
    && Adoptable(rules, CHROMIACAST_BACKEND_ID, snapshot)
    && Faithful(generation, log, Adopted(CHROMIACAST_BACKEND_ID, snapshot))
    && snapshot.devices == Listing(Lift(At(log, snapshot.revision)))
  }

  /** The infos of the listed records. */
  ghost function Selected(records: Records, ids: set<string>): Infos {
    map id | id in ids && id in records :: records[id].info
  }

  lemma SelectedStep(records: Records, ids: set<string>, id: string)
    requires id in records && records[id].info.Key() == (CHROMIACAST_BACKEND_ID, id)
    ensures Lift(Selected(records, ids + {id})) ==
              Lift(Selected(records, ids))[records[id].info.Key() := records[id].info]
  {
  }

  lemma ElementsStep(ids: seq<string>, n: nat)
    requires n < |ids|
    ensures Elements(ids[..n + 1]) == Elements(ids[..n]) + {ids[n]}
  {
    assert ids[..n + 1][..n] == ids[..n];
  }

  /** What the first `n` identifiers list, keyed the way the host keys it. */
  ghost function Stage(records: Records, ids: seq<string>, n: nat): map<Key, DeviceInfo>
    requires n <= |ids|
  {
    Lift(Selected(records, Elements(ids[..n])))
  }

  lemma FirstStage(records: Records, ids: seq<string>)
    ensures Stage(records, ids, 0) == map[]
  {
  }

  lemma NextStage(records: Records, ids: seq<string>, n: nat)
    requires Filed(records) && n < |ids| && ids[n] in records
    ensures var info := records[ids[n]].info; Stage(records, ids, n + 1) == Stage(records, ids, n)[info.Key() := info]
  {
    ElementsStep(ids, n);
    SelectedStep(records, Elements(ids[..n]), ids[n]);
  }

  lemma {:induction false} FiledInStages(devices: seq<DeviceInfo>, stages: seq<map<Key, DeviceInfo>>, n: nat)
    requires n < |stages| == |devices| + 1 && stages[0] == map[]
    requires forall i :: 0 <= i < |devices| ==> stages[i + 1] == stages[i][devices[i].Key() := devices[i]]
    ensures FiledDevices(devices, n) == stages[n]
  {
    if n == 0 {
    } else {
      FiledInStages(devices, stages, n - 1);
      assert stages[n - 1 + 1] == stages[n - 1][devices[n - 1].Key() := devices[n - 1]];
    }
  }

  lemma FiledDevicesAre(records: Records, ids: seq<string>, devices: seq<DeviceInfo>, n: nat)
    requires Filed(records) && n <= |ids| == |devices|
    requires forall i :: 0 <= i < |ids| ==> ids[i] in records && devices[i] == records[ids[i]].info
    ensures FiledDevices(devices, n) == Lift(Selected(records, Elements(ids[..n])))
  {
    var stages := seq(|ids| + 1, i requires 0 <= i <= |ids| => Stage(records, ids, i));
    FirstStage(records, ids);
    forall i | 0 <= i < |devices| ensures stages[i + 1] == stages[i][devices[i].Key() := devices[i]] {
      NextStage(records, ids, i);
    }
    FiledInStages(devices, stages, n);
  }

  lemma SnapshotKeys(records: Records, ids: seq<string>, devices: seq<DeviceInfo>)
    requires Filed(records) && |ids| == |devices|
    requires forall i :: 0 <= i < |ids| ==> ids[i] in records && devices[i] == records[ids[i]].info
    requires Distinct(ids)
    ensures forall i :: 0 <= i < |ids| ==> devices[i].Key() == (CHROMIACAST_BACKEND_ID, ids[i])
    ensures forall i, j :: 0 <= i < j < |ids| ==> devices[i].Key() != devices[j].Key()
  {
  }

  lemma LiftKeys(records: Records)
    ensures forall id :: id in records.Keys <==> (CHROMIACAST_BACKEND_ID, id) in Lift(Viewed(records, InfoOf)).Keys
    ensures forall k :: k in Lift(Viewed(records, InfoOf)).Keys ==> k.0 == CHROMIACAST_BACKEND_ID
  {
  }

  /** Both ends list an inventory in the same order. */
  lemma ListingLift(records: Records)
    ensures |Listing(Lift(Viewed(records, InfoOf)))| == |SortedIds(records.Keys)|
    ensures forall i :: 0 <= i < |SortedIds(records.Keys)| ==>
              Listing(Lift(Viewed(records, InfoOf)))[i] == records[SortedIds(records.Keys)[i]].info
  {
    var lifted := Lift(Viewed(records, InfoOf));
    LiftKeys(records);
    SharedPrefixOrder(records.Keys, lifted.Keys, CHROMIACAST_BACKEND_ID);
  }

  /** The devices of a snapshot file back into the inventory they were listed from. */
  lemma RelistedDevices(records: Records, ids: seq<string>, devices: seq<DeviceInfo>)
    requires Filed(records) && |ids| == |devices|
    requires forall i :: 0 <= i < |ids| ==> ids[i] in records && devices[i] == records[ids[i]].info
    requires forall id :: id in records ==> id in ids
    ensures FiledDevices(devices, |devices|) == Lift(Viewed(records, InfoOf))
  {
    FiledDevicesAre(records, ids, devices, |ids|);
    ElementsAre(ids);
    assert ids[..|ids|] == ids;
    assert Selected(records, Elements(ids)) == Viewed(records, InfoOf);
  }

  lemma RelistedAdoptable(rules: Rules, records: Records, ids: seq<string>, snapshot: DeviceSnapshot)
    requires ValidRecords(rules, records) && snapshot.discoveryGeneration != 0
               && |ids| == |snapshot.devices| == |records.Keys|
    requires forall i :: 0 <= i < |ids| ==> ids[i] in records && snapshot.devices[i] == records[ids[i]].info
    requires Distinct(ids)
    ensures Adoptable(rules, CHROMIACAST_BACKEND_ID, snapshot)
  {
    SnapshotKeys(records, ids, snapshot.devices);
    forall i | 0 <= i < |ids|
        ensures rules.info(snapshot.devices[i]) && snapshot.devices[i].backendId == CHROMIACAST_BACKEND_ID {
      assert records[ids[i]].Valid(rules);
    }
  }

  lemma SnapshotListed(active: ActiveDiscovery)
    ensures SnapshotOf(active).devices == Listing(Lift(Viewed(active.devices, InfoOf)))
  {
    ListingLift(active.devices);
  }

  /** Whatever the backend answers to `ListDevices` is its inventory at that revision, and the host can adopt it. */
  lemma SnapshotGenuine(rules: Rules, log: seq<DeviceEvent>, active: ActiveDiscovery)
    requires active.generation != 0 && active.revision == |log| + 1 && ValidRecords(rules, active.devices)
    requires At(log, active.revision) == Viewed(active.devices, InfoOf)
    ensures GenuineSnapshot(rules, active.generation, log, SnapshotOf(active))
  {
    SnapshotListed(active);
    RelistedGenuine(rules, log, active.devices, SortedIds(active.devices.Keys), SnapshotOf(active));
  }

  lemma RelistedGenuine(rules: Rules, log: seq<DeviceEvent>, records: Records, ids: seq<string>,
      snapshot: DeviceSnapshot)
    requires snapshot.discoveryGeneration != 0 && snapshot.revision == |log| + 1 && ValidRecords(rules, records)
    requires At(log, snapshot.revision) == Viewed(records, InfoOf)
    requires |ids| == |snapshot.devices| == |records.Keys|
    requires forall i :: 0 <= i < |ids| ==> ids[i] in records && snapshot.devices[i] == records[ids[i]].info
    requires snapshot.devices == Listing(Lift(Viewed(records, InfoOf)))
    requires Distinct(ids)
    requires forall id :: id in records ==> id in ids
    ensures GenuineSnapshot(rules, snapshot.discoveryGeneration, log, snapshot)
  {
    RelistedDevices(records, ids, snapshot.devices);
    RelistedAdoptable(rules, records, ids, snapshot);
    GenuineWhen(rules, log, snapshot, Viewed(records, InfoOf));
  }

  lemma GenuineWhen(rules: Rules, log: seq<DeviceEvent>, snapshot: DeviceSnapshot, infos: Infos)
    requires snapshot.revision == |log| + 1 && At(log, snapshot.revision) == infos
    requires Adoptable(rules, CHROMIACAST_BACKEND_ID, snapshot)
    requires FiledDevices(snapshot.devices, |snapshot.devices|) == Lift(infos)
    requires snapshot.devices == Listing(Lift(infos))
    ensures GenuineSnapshot(rules, snapshot.discoveryGeneration, log, snapshot)
  {
  }

  // ----- The host replays a scan -----

  /** `apply` over the first `n` events of a batch, and whether each of them was applied. */
  ghost function AppliedAll(rules: Rules, inventory: Inventory, events: seq<DeviceEvent>, n: nat): (Inventory, bool)
    requires n <= |events|
  {
    if n == 0 then (inventory, true)
    else
      var (before, all) := AppliedAll(rules, inventory, events, n - 1);
      var (after, outcome) := Applied(rules, before, events[n - 1]);
      (after, all && outcome == Ok(Updated))
  }

  lemma {:induction false} ReplayLog(rules: Rules, generation: u64, log: seq<DeviceEvent>, events: seq<DeviceEvent>,
                                     inventory: Inventory, n: nat)
    requires Genuine(rules, generation, log + events) && n <= |events|
    requires Faithful(generation, log + events, inventory) && inventory.revision == |log| + 1
    ensures var (after, all) := AppliedAll(rules, inventory, events, n);
            all && Faithful(generation, log + events, after) && after.revision == |log| + 1 + n
  {
    if n > 0 {
      ReplayLog(rules, generation, log, events, inventory, n - 1);
      var before := AppliedAll(rules, inventory, events, n - 1).0;
      assert (log + events)[before.revision - 1] == events[n - 1];
      ApplyGenuine(rules, generation, log + events, before, before.revision - 1);
    }
  }

  /**
   * A host that holds the inventory before a scan accepts every event of the scan, and then holds exactly the scanned
   * inventory.
   */
  lemma HostReplaysScan(rules: Rules, generation: u64, log: seq<DeviceEvent>, inventory: Inventory,
                        prior: Records, next: Records, gone: seq<string>, kept: seq<string>)
    requires rules.Coherent() && Genuine(rules, generation, log)
    requires ValidRecords(rules, prior) && ValidRecords(rules, next) && Visits(prior, next, gone, kept)
    requires At(log, |log| + 1) == Viewed(prior, InfoOf)
               && |log| + 1 + |ScanChanges(prior, next, gone, kept)| <= U64_MAX
    requires Faithful(generation, log, inventory) && inventory.revision == |log| + 1
    ensures var events := Numbered(generation, |log| + 1, ScanChanges(prior, next, gone, kept));
            var (after, all) := AppliedAll(rules, inventory, events, |events|);
            && all
            && after.revision == inventory.revision + |events|
            && after.devices == Lift(Viewed(next, InfoOf))
  {
    var changes := ScanChanges(prior, next, gone, kept);
    var events := Numbered(generation, |log| + 1, changes);
    assert changes[..|changes|] == changes;
    ScanExtends(rules, generation, log, prior, next, gone, kept, |changes|);
    ReplayExtension(rules, generation, log, events, inventory);
  }

  lemma ReplayExtension(rules: Rules, generation: u64, log: seq<DeviceEvent>, events: seq<DeviceEvent>,
      inventory: Inventory)
    requires Genuine(rules, generation, log + events)
    requires Faithful(generation, log, inventory) && inventory.revision == |log| + 1
    ensures var (after, all) := AppliedAll(rules, inventory, events, |events|);
            && all
            && after.revision == |log + events| + 1
            && after.devices == Lift(At(log + events, |log + events| + 1))
  {
    FaithfulExtends(generation, log, events, inventory);
    ReplayLog(rules, generation, log, events, inventory, |events|);
  }

  lemma FaithfulExtends(generation: u64, log: seq<DeviceEvent>, events: seq<DeviceEvent>, inventory: Inventory)
    requires Faithful(generation, log, inventory)
    ensures Faithful(generation, log + events, inventory)
  {
    AtPrefix(log, log + events, inventory.revision);
  }
}
