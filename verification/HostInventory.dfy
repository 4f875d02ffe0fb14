/** The host's replica of a backend's device inventory, and the event loop that keeps or replaces it. */
module HostInventory {
  import opened Common
  import opened Ordering
  import opened Protocol

  datatype ApplyOutcome = Updated | IgnoredCoveredBySnapshot | IgnoredDuplicate

  datatype InventoryError =
    | InvalidRecord
    | WrongBackendId(wanted: string, got: string)
    | GenerationMismatch(expected: u64, actual: u64)
    | RevisionGap(expected: u64, actual: u64)
    | RevisionExhausted
    | ConflictingDuplicate(revision: u64)
    | AlreadyPresent(key: Key)
    | NotPresent(key: Key)

  datatype Inventory = Inventory(
    expectedBackendId: string,
    discoveryGeneration: u64,
    baselineRevision: u64,
    revision: u64,
    devices: map<Key, DeviceInfo>,
    lastApplied: Option<DeviceEvent>)

  function CheckEvent(rules: Rules, expectedBackendId: string, event: DeviceEvent): Option<InventoryError> {
    if event.revision == 0 || !event.change.Valid(rules) then Some(InvalidRecord)
    else if event.change.Key().0 != expectedBackendId then Some(WrongBackendId(expectedBackendId, event.change.Key().0))
    else None
  }

  /** `DeviceInventory::apply` as a function of the inventory. */
  ghost function Applied(rules: Rules, inventory: Inventory, event: DeviceEvent)
    : (Inventory, Result<ApplyOutcome, InventoryError>)
  {
    var key, revision := event.change.Key(), event.revision;
    var fault := CheckEvent(rules, inventory.expectedBackendId, event);
    if fault.Some? then
      (inventory, Err(fault.value))
    else if event.discoveryGeneration != inventory.discoveryGeneration then
      (inventory, Err(GenerationMismatch(inventory.discoveryGeneration, event.discoveryGeneration)))
    else if revision <= inventory.baselineRevision || revision < inventory.revision then
      (inventory, Ok(IgnoredCoveredBySnapshot))
    else if revision == inventory.revision then
      (inventory, if inventory.lastApplied == Some(event) then Ok(IgnoredDuplicate)
          else Err(ConflictingDuplicate(revision)))
    else if revision != inventory.revision + 1 then
      (inventory, Err(RevisionGap(inventory.revision + 1, revision)))
    else if event.change.Added? && key in inventory.devices then
      (inventory, Err(AlreadyPresent(key)))
    else if !event.change.Added? && key !in inventory.devices then
      (inventory, Err(NotPresent(key)))
    else
      var devices := if event.change.Removed? then Without(inventory.devices, key)
          else inventory.devices[key := event.change.info];
      (inventory.(devices := devices, revision := revision, lastApplied := Some(event)), Ok(Updated))
  }

  /** A well-formed event about a device of the expected backend. */
  ghost predicate Wellformed(rules: Rules, inventory: Inventory, event: DeviceEvent) {
    event.revision != 0 && event.change.Valid(rules) && event.change.Key().0 == inventory.expectedBackendId
  }

  ghost predicate Pertains(rules: Rules, inventory: Inventory, event: DeviceEvent) {
    Wellformed(rules, inventory, event) && event.discoveryGeneration == inventory.discoveryGeneration
  }

  /** Additions are of devices that are not there, changes and removals of devices that are. */
  ghost predicate Fits(inventory: Inventory, event: DeviceEvent) {
    event.change.Key() in inventory.devices <==> !event.change.Added?
  }

  /** The inventory with one device added, replaced or removed, and every other as it was. */
  ghost predicate OneChange(before: map<Key, DeviceInfo>, after: map<Key, DeviceInfo>, change: Change) {
    && (change.Key() in after <==> !change.Removed?)
    && (!change.Removed? ==> after[change.Key()] == change.info)
    && (forall key :: key != change.Key() ==> (key in after <==> key in before))
    && (forall key :: key != change.Key() && key in before ==> after[key] == before[key])
  }

  /** Every outcome of an event and the exact circumstances it has. */
  lemma AppliedExactly(rules: Rules, i: Inventory, event: DeviceEvent)
    requires i.baselineRevision <= i.revision
    ensures var (t, r) := Applied(rules, i, event);
            var next, pertains := event.revision == i.revision + 1, Pertains(rules, i, event);
            && (r == Ok(Updated) <==> pertains && next && Fits(i, event))
            && (r == Ok(Updated) ==>
                  && OneChange(i.devices, t.devices, event.change)
                  && t == i.(devices := t.devices, revision := event.revision, lastApplied := Some(event)))
            && (r != Ok(Updated) ==> t == i)
            && (r == Ok(IgnoredDuplicate) <==>
                  pertains && i.baselineRevision < event.revision == i.revision && i.lastApplied == Some(event))
            && (r == Ok(IgnoredCoveredBySnapshot) <==>
                  pertains && (event.revision <= i.baselineRevision || event.revision < i.revision))
            && (r.Err? && r.error.GenerationMismatch? <==> Wellformed(rules, i, event) && !pertains)
            && (r.Err? && r.error.RevisionGap? <==> pertains && event.revision > i.revision + 1)
            && (r.Err? && r.error.ConflictingDuplicate? <==>
                  pertains && i.baselineRevision < event.revision == i.revision && i.lastApplied != Some(event))
            && (r.Err? && r.error.AlreadyPresent? <==> pertains && next && event.change.Added? && !Fits(i, event))
            && (r.Err? && r.error.NotPresent? <==> pertains && next && !event.change.Added? && !Fits(i, event))
            && (r == Err(InvalidRecord) <==> event.revision == 0 || !event.change.Valid(rules))
            && (r.Err? && r.error.WrongBackendId? <==>
                  && event.revision != 0 && event.change.Valid(rules)
                  && event.change.Key().0 != i.expectedBackendId)
  {
  }

  /** An event that has been applied is recognised when it comes again, and nothing else is taken for it. */
  lemma AppliedOnce(rules: Rules, i: Inventory, event: DeviceEvent, again: DeviceEvent)
    requires i.baselineRevision <= i.revision && Applied(rules, i, event).1 == Ok(Updated)
    requires again.revision == event.revision && Pertains(rules, i, again)
    ensures var t := Applied(rules, i, event).0;
            Applied(rules, t, again) ==
              (t, if again == event then Ok(IgnoredDuplicate) else Err(ConflictingDuplicate(event.revision)))
  {
    AppliedExactly(rules, i, event);
  }

  ghost function FiledDevices(devices: seq<DeviceInfo>, n: nat): map<Key, DeviceInfo>
    requires n <= |devices|
  {
    if n == 0 then map[] else FiledDevices(devices, n - 1)[devices[n - 1].Key() := devices[n - 1]]
  }

  ghost predicate OfBackend(backendId: string, devices: seq<DeviceInfo>, n: nat)
    requires n <= |devices|
  {
    forall i :: 0 <= i < n ==> devices[i].backendId == backendId
  }

  /** The first device of another backend. */
  ghost predicate ForeignAt(backendId: string, devices: seq<DeviceInfo>, n: nat) {
    n < |devices| && OfBackend(backendId, devices, n) && devices[n].backendId != backendId
  }

  /** The inventory a snapshot stands for. */
  ghost function Adopted(expectedBackendId: string, snapshot: DeviceSnapshot): Inventory {
    Inventory(expectedBackendId, snapshot.discoveryGeneration, snapshot.revision, snapshot.revision,
              FiledDevices(snapshot.devices, |snapshot.devices|), None)
  }

  /** `DeviceInventory::snapshot`: the devices in iteration order. */
  function Listing(devices: map<Key, DeviceInfo>): seq<DeviceInfo> {
    var keys := SortedKeys(devices.Keys);
    seq(|keys|, i requires 0 <= i < |keys| => devices[keys[i]])
  }

  /** A snapshot the host can adopt. */
  ghost predicate Adoptable(rules: Rules, backendId: string, snapshot: DeviceSnapshot) {
    snapshot.Valid(rules) && OfBackend(backendId, snapshot.devices, |snapshot.devices|)
  }

  class DeviceInventory {
    const rules: Rules
    var expectedBackendId: string
    var discoveryGeneration: u64
    var baselineRevision: u64
    var revision: u64
    var devices: map<Key, DeviceInfo>
    var lastApplied: Option<DeviceEvent>

    ghost function View(): Inventory
      reads this
    {
      Inventory(expectedBackendId, discoveryGeneration, baselineRevision, revision, devices, lastApplied)
    }

    constructor (rules: Rules, expectedBackendId: string, snapshot: DeviceSnapshot, devices: map<Key, DeviceInfo>)
      ensures this.rules == rules
      ensures View() ==
                Inventory(expectedBackendId, snapshot.discoveryGeneration, snapshot.revision, snapshot.revision,
                    devices, None)
    {
      this.rules, this.expectedBackendId := rules, expectedBackendId;
      discoveryGeneration, baselineRevision, revision := snapshot.discoveryGeneration, snapshot.revision,
          snapshot.revision;
      this.devices, lastApplied := devices, None;
    }

    static method FromSnapshot(rules: Rules, expectedBackendId: string, snapshot: DeviceSnapshot)
      returns (r: Result<DeviceInventory, InventoryError>)
      ensures r.Ok? <==> Adoptable(rules, expectedBackendId, snapshot)
      ensures r.Ok? ==> fresh(r.value) && r.value.rules == rules
                        && r.value.View() == Adopted(expectedBackendId, snapshot)
      ensures !snapshot.Valid(rules) ==> r == Err(InvalidRecord)
      ensures snapshot.Valid(rules) && r.Err? ==>
                exists n :: 0 <= n < |snapshot.devices| && ForeignAt(expectedBackendId, snapshot.devices, n)
                            && r.error == WrongBackendId(expectedBackendId, snapshot.devices[n].backendId)
    {
      if !snapshot.Valid(rules) {
        return Err(InvalidRecord);
      }
      var devices: map<Key, DeviceInfo> := map[];
      for n := 0 to |snapshot.devices|
        invariant OfBackend(expectedBackendId, snapshot.devices, n) && devices == FiledDevices(snapshot.devices, n)
      {
        var device := snapshot.devices[n];
        if device.backendId != expectedBackendId {
          assert ForeignAt(expectedBackendId, snapshot.devices, n);
          return Err(WrongBackendId(expectedBackendId, device.backendId));
        }
        devices := devices[device.Key() := device];
      }
      var inventory := new DeviceInventory(rules, expectedBackendId, snapshot, devices);
      r := Ok(inventory);
    }

    method Apply(event: DeviceEvent) returns (r: Result<ApplyOutcome, InventoryError>)
      modifies this
      ensures (View(), r) == Applied(rules, old(View()), event)
    {
      var fault := CheckEvent(rules, expectedBackendId, event);
      if fault.Some? {
        return Err(fault.value);
      }
      if event.discoveryGeneration != discoveryGeneration {
        return Err(GenerationMismatch(discoveryGeneration, event.discoveryGeneration));
      }
      if event.revision <= baselineRevision || event.revision < revision {
        return Ok(IgnoredCoveredBySnapshot);
      }
      if event.revision == revision {
        return if lastApplied == Some(event) then Ok(IgnoredDuplicate) else Err(ConflictingDuplicate(revision));
      }
      var expected := CheckedSucc(revision);
      if expected.None? {
        return Err(RevisionExhausted);
      }
      if event.revision != expected.value {
        return Err(RevisionGap(expected.value, event.revision));
      }
      var key := event.change.Key();
      match event.change {
        case Added(device) =>
          if key in devices {
            return Err(AlreadyPresent(key));
          }
          devices := devices[key := device];
        case Changed(device) =>
          if key !in devices {
            return Err(NotPresent(key));
          }
          devices := devices[key := device];
        case Removed(_) =>
          if key !in devices {
            return Err(NotPresent(key));
          }
          devices := Without(devices, key);
      }
      revision := event.revision;
      lastApplied := Some(event);
      r := Ok(Updated);
    }
  }

  datatype Notification =
    | InventoryChanged(revision: u64, devices: seq<DeviceInfo>)
    | Resynchronized(reason: InventoryError, revision: u64, devices: seq<DeviceInfo>)
    | Failed

  /** What a `ListDevices` call makes of the replica: a replacement, or nothing when the call or its checks fail. */
  ghost function Fetched(rules: Rules, backendId: string, generation: u64,
      reply: Option<DeviceSnapshot>): Option<Inventory> {
    if reply.Some? && reply.value.discoveryGeneration == generation && Adoptable(rules, backendId, reply.value)
    then Some(Adopted(backendId, reply.value))
    else None
  }

  method FetchSnapshot(rules: Rules, backendId: string, generation: u64, reply: Option<DeviceSnapshot>)
    returns (r: Option<DeviceInventory>)
    ensures r.None? <==> Fetched(rules, backendId, generation, reply).None?
    ensures r.Some? ==> fresh(r.value) && r.value.rules == rules
                        && Some(r.value.View()) == Fetched(rules, backendId, generation, reply)
  {
    if reply.None? || reply.value.discoveryGeneration != generation {
      return None;
    }
    var adopted := DeviceInventory.FromSnapshot(rules, backendId, reply.value);
    r := if adopted.Ok? then Some(adopted.value) else None;
  }

  /** One turn of the loop: apply the event, or fall back to a snapshot. `reply` is what `ListDevices` would answer. */
  method ProcessEvent(inventory: DeviceInventory, event: DeviceEvent, reply: Option<DeviceSnapshot>, listening: bool)
    returns (proceed: bool, notification: Option<Notification>)
    modifies inventory
    ensures var (applied, outcome) := Applied(inventory.rules, old(inventory.View()), event);
            if outcome.Ok? then
              && inventory.View() == applied
              && proceed == (outcome.value.Updated? ==> listening)
              && notification == if outcome.value.Updated? then
                  Some(InventoryChanged(applied.revision, Listing(applied.devices))) else None
            else
              var fetched := Fetched(inventory.rules, applied.expectedBackendId, applied.discoveryGeneration, reply);
              && inventory.View() == (if fetched.Some? then fetched.value else applied)
              && proceed == (fetched.Some? && listening)
              && notification == if fetched.Some?
                                 then Some(Resynchronized(outcome.error, fetched.value.revision,
                                     Listing(fetched.value.devices)))
                                 else Some(Failed)
  {
    var outcome := inventory.Apply(event);
    if outcome.Ok? {
      if outcome.value.Updated? {
        return listening, Some(InventoryChanged(inventory.revision, Listing(inventory.devices)));
      }
      return true, None;
    }
    var replacement :=
        FetchSnapshot(inventory.rules, inventory.expectedBackendId, inventory.discoveryGeneration, reply);
    if replacement.None? {
      return false, Some(Failed);
    }
    var fresher := replacement.value;
    inventory.expectedBackendId, inventory.discoveryGeneration := fresher.expectedBackendId,
        fresher.discoveryGeneration;
    inventory.baselineRevision, inventory.revision := fresher.baselineRevision, fresher.revision;
    inventory.devices, inventory.lastApplied := fresher.devices, fresher.lastApplied;
    proceed := listening;
    notification := Some(Resynchronized(outcome.error, inventory.revision, Listing(inventory.devices)));
  }
}
