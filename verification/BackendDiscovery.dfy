/** The backend's discovery actor: generations, revisions and the diff of each scan against the inventory. */
module BackendDiscovery {
  import opened Common
  import opened Diff
  import opened Ordering
  import opened Protocol

  const CHROMIACAST_BACKEND_ID := "chromiacast"
  const EVENT_QUEUE_CAPACITY := 2 * MAX_DEVICES

  datatype IpAddr = V4(bits: u32) | V6(high: u64, low: u64) {
    predicate Unspecified() {
      if V4? then bits == 0 else high == 0 && low == 0
    }

    predicate Multicast() {
      if V4? then 224 <= bits / 0x100_0000 <= 239 else high / 0x100_0000_0000_0000 == 0xFF
    }
  }

  datatype SocketAddr = SocketAddr(ip: IpAddr, port: u16, flowInfo: u32, scopeId: u32)

  datatype DeviceRecord = DeviceRecord(info: DeviceInfo, endpoints: seq<SocketAddr>) {
    predicate UsableEndpoints() {
      && 0 < |endpoints| <= MAX_ENDPOINTS
      && (forall i :: 0 <= i < |endpoints| ==>
            endpoints[i].port != 0 && !endpoints[i].ip.Unspecified() && !endpoints[i].ip.Multicast())
      && Distinct(endpoints)
    }

    predicate Valid(rules: Rules) {
      rules.info(info) && info.backendId == CHROMIACAST_BACKEND_ID && UsableEndpoints()
    }
  }

  function InfoOf(record: DeviceRecord): DeviceInfo { record.info }

  type Records = map<string, DeviceRecord>

  /** Inventories as the wire shows them, by device ID. */
  type Infos = map<string, DeviceInfo>

  datatype DiscoveryActorError =
    | Stopped
    | NotActive
    | StaleGeneration(expected: u64, actual: u64)
    | GenerationExhausted
    | RevisionExhausted
    | TooManyDevices
    | DuplicateDevice(id: string)
    | InvalidDevice

  datatype ActiveDiscovery = ActiveDiscovery(generation: u64, revision: u64, devices: Records)

  /** Every record is filed under its own device ID. */
  ghost predicate Filed(records: Records) {
    forall id :: id in records ==> records[id].info.Key() == (CHROMIACAST_BACKEND_ID, id)
  }

  ghost predicate ValidRecords(rules: Rules, records: Records) {
    Filed(records) && |records.Keys| <= MAX_DEVICES && forall id :: id in records ==> records[id].Valid(rules)
  }

  /** `snapshot`: the inventory in iteration order. */
  function SnapshotOf(active: ActiveDiscovery): DeviceSnapshot {
    var ids := SortedIds(active.devices.Keys);
    DeviceSnapshot(active.generation, active.revision,
                   seq(|ids|, i requires 0 <= i < |ids| => active.devices[ids[i]].info))
  }

  // ----- The diff of a scan -----

  ghost function WireChange(edit: Edit<string, DeviceInfo>): Change {
    match edit
    case Insert(_, info) => Added(info)
    case Replace(_, info) => Changed(info)
    case Delete(id) => Removed(DeviceIdentity(CHROMIACAST_BACKEND_ID, id))
  }

  ghost function WireChanges(edits: seq<Edit<string, DeviceInfo>>): (changes: seq<Change>)
    ensures |changes| == |edits|
    ensures forall i :: 0 <= i < |edits| ==> changes[i] == WireChange(edits[i])
  {
    seq(|edits|, i requires 0 <= i < |edits| => WireChange(edits[i]))
  }

  /** The order in which a scan visits vanished and current devices, each once. */
  ghost predicate Visits(prior: Records, next: Records, gone: seq<string>, kept: seq<string>) {
    && (forall i :: 0 <= i < |gone| ==> gone[i] in prior && gone[i] !in next)
    && (forall id :: id in prior && id !in next ==> id in gone)
    && Distinct(gone)
    && (forall i :: 0 <= i < |kept| ==> kept[i] in next)
    && (forall id :: id in next ==> id in kept)
    && Distinct(kept)
  }

  ghost function ScanEdits(prior: Records, next: Records, gone: seq<string>, kept: seq<string>): seq<Edit<string,
      DeviceInfo>>
    requires Visits(prior, next, gone, kept)
  {
    DiffEdits(prior, next, InfoOf, gone, kept)
  }

  /** Removals first, then additions and changes. */
  ghost function ScanChanges(prior: Records, next: Records, gone: seq<string>, kept: seq<string>): seq<Change>
    requires Visits(prior, next, gone, kept)
  {
    WireChanges(ScanEdits(prior, next, gone, kept))
  }

  /** Consecutive revisions above `revision`. */
  ghost function Numbered(generation: u64, revision: u64, changes: seq<Change>): (events: seq<DeviceEvent>)
    requires revision + |changes| <= U64_MAX
    ensures |events| == |changes|
    ensures forall i :: 0 <= i < |events| ==> events[i] == DeviceEvent(generation, revision + 1 + i, changes[i])
  {
    seq(|changes|, i requires 0 <= i < |changes| => DeviceEvent(generation, revision + 1 + i, changes[i]))
  }

  lemma {:induction false} DistinctSize(s: seq<string>, ids: set<string>)
    requires forall i :: 0 <= i < |s| ==> s[i] in ids
    requires Distinct(s)
    ensures |s| <= |ids|
  {
    if s == [] {
    } else {
      DistinctSize(s[..|s| - 1], ids - {s[|s| - 1]});
    }
  }

  /** One scan never outgrows the event queue. */
  lemma ScanFitsQueue(rules: Rules, prior: Records, next: Records, gone: seq<string>, kept: seq<string>)
    requires ValidRecords(rules, prior) && ValidRecords(rules, next) && Visits(prior, next, gone, kept)
    ensures |ScanChanges(prior, next, gone, kept)| <= EVENT_QUEUE_CAPACITY
  {
    DistinctSize(gone, prior.Keys);
    DistinctSize(kept, next.Keys);
  }

  /** Replaying a scan's changes on the previous inventory gives exactly the scanned one. */
  lemma ReplayScan(prior: Records, next: Records, gone: seq<string>, kept: seq<string>)
    requires Visits(prior, next, gone, kept)
    ensures AllApplicable(Viewed(prior, InfoOf), ScanEdits(prior, next, gone, kept))
    ensures PatchAll(Viewed(prior, InfoOf), ScanEdits(prior, next, gone, kept)) == Viewed(next, InfoOf)
  {
    PatchAfterDiff(prior, next, InfoOf, gone, kept);
  }

  /** What a change says: a device that is only in the old inventory, only in the new one, or differs between them. */
  ghost predicate Announces(prior: Records, next: Records, change: Change) {
    match change
    case Removed(identity) =>
      var id := identity.deviceId; id in prior && id !in next && identity == prior[id].info.Identity()
    case Added(info) => var id := info.deviceId; id !in prior && id in next && info == next[id].info
    case Changed(info) =>
      var id := info.deviceId; id in prior && id in next && prior[id] != next[id] && info == next[id].info
  }

  /** The device is gone, new or different. */
  ghost predicate Moved(prior: Records, next: Records, id: string) {
    if id in prior then id !in next || prior[id] != next[id] else id in next
  }

  /** Every event tells the truth, and no device is named twice. */
  ghost predicate TrueDiff(prior: Records, next: Records, events: seq<DeviceEvent>) {
    && (forall i :: 0 <= i < |events| ==> Announces(prior, next, events[i].change))
    && (forall i, j :: 0 <= i < j < |events| ==> events[i].change.Key() != events[j].change.Key())
  }

  /** Every difference is announced exactly once, and nothing else is. */
  ghost predicate ExactDiff(prior: Records, next: Records, events: seq<DeviceEvent>) {
    && TrueDiff(prior, next, events)
    && (forall id :: Moved(prior, next, id) ==>
          exists i :: 0 <= i < |events| && events[i].change.Key().1 == id)
  }

  lemma DeletionAnnounces(prior: Records, next: Records, id: string)
    requires Filed(prior) && id in prior && id !in next
    ensures Announces(prior, next, WireChange(Delete(id))) && WireChange(Delete(id)).Key().1 == id
  {
  }

  lemma UpsertAnnounces(prior: Records, next: Records, id: string, edit: Edit<string, DeviceInfo>)
    requires Filed(next) && EditFor(prior, next, InfoOf, id, edit)
    ensures Announces(prior, next, WireChange(edit)) && WireChange(edit).Key().1 == id
  {
  }

  /** The identifiers a scan announces: the vanished ones, then those that differ. */
  ghost function Announced(gone: seq<string>, kept: seq<string>, at: seq<nat>): (ids: seq<string>)
    requires forall i :: 0 <= i < |at| ==> at[i] < |kept|
    ensures |ids| == |gone| + |at|
  {
    gone + seq(|at|, i requires 0 <= i < |at| => kept[at[i]])
  }

  lemma AnnouncedOnce(gone: seq<string>, kept: seq<string>, at: seq<nat>)
    requires Distinct(gone) && Distinct(kept)
    requires forall i, j :: 0 <= i < |gone| && 0 <= j < |kept| ==> gone[i] != kept[j]
    requires forall i :: 0 <= i < |at| ==> at[i] < |kept|
    requires forall i, j :: 0 <= i < j < |at| ==> at[i] < at[j]
    ensures Distinct(Announced(gone, kept, at))
  {
  }

  /** Where each change of a scan comes from. */
  lemma ScanChangeAt(prior: Records, next: Records, gone: seq<string>, kept: seq<string>, i: nat)
    requires Visits(prior, next, gone, kept) && i < |gone| + |Upserts(prior, next, InfoOf, kept)|
    ensures |ScanChanges(prior, next, gone, kept)| == |gone| + |Upserts(prior, next, InfoOf, kept)|
    ensures ScanChanges(prior, next, gone, kept)[i] ==
              WireChange(if i < |gone| then Delete(gone[i]) else Upserts(prior, next, InfoOf, kept)[i - |gone|])
  {
  }

  lemma UpsertAnnouncesAt(prior: Records, next: Records, kept: seq<string>, edits: seq<Edit<string, DeviceInfo>>,
                          at: seq<nat>, k: nat)
    requires Filed(next) && UpsertsAt(prior, next, InfoOf, kept, edits, at) && k < |at|
    ensures Announces(prior, next, WireChange(edits[k])) && WireChange(edits[k]).Key().1 == kept[at[k]]
  {
    assert EditFor(prior, next, InfoOf, kept[at[k]], edits[k]);
    UpsertAnnounces(prior, next, kept[at[k]], edits[k]);
  }

  lemma ScanAnnounces(prior: Records, next: Records, gone: seq<string>, kept: seq<string>,
                      edits: seq<Edit<string, DeviceInfo>>, at: seq<nat>, i: nat, change: Change)
    requires Filed(prior) && Filed(next) && UpsertsAt(prior, next, InfoOf, kept, edits, at)
    requires i < |gone| + |at| && (i < |gone| ==> gone[i] in prior && gone[i] !in next)
    requires change == WireChange(if i < |gone| then Delete(gone[i]) else edits[i - |gone|])
    ensures Announces(prior, next, change) && change.Key().1 == Announced(gone, kept, at)[i]
  {
    if i < |gone| {
      DeletionAnnounces(prior, next, gone[i]);
    } else {
      UpsertAnnouncesAt(prior, next, kept, edits, at, i - |gone|);
    }
  }

  lemma AnnouncedAll(prior: Records, next: Records, gone: seq<string>, kept: seq<string>, at: seq<nat>, id: string)
    requires Visits(prior, next, gone, kept) && Moved(prior, next, id)
    requires forall i :: 0 <= i < |at| ==> at[i] < |kept|
    requires forall k :: 0 <= k < |kept| && Differs(prior, next, kept[k]) ==> k in at
    ensures id in Announced(gone, kept, at)
  {
    var ids := Announced(gone, kept, at);
    if id !in next {
      var i :| 0 <= i < |gone| && gone[i] == id;
      assert ids[i] == id;
    } else {
      var k :| 0 <= k < |kept| && kept[k] == id;
      assert Differs(prior, next, kept[k]);
      var i :| 0 <= i < |at| && at[i] == k;
      assert ids[|gone| + i] == id;
    }
  }

  lemma ExactWhen(prior: Records, next: Records, events: seq<DeviceEvent>, ids: seq<string>)
    requires |events| == |ids| && Distinct(ids)
    requires forall i :: 0 <= i < |ids| ==>
               Announces(prior, next, events[i].change) && events[i].change.Key().1 == ids[i]
    requires forall id :: Moved(prior, next, id) ==> id in ids
    ensures ExactDiff(prior, next, events)
  {
    forall id | Moved(prior, next, id) ensures exists i :: 0 <= i < |events| && events[i].change.Key().1 == id {
      var i :| 0 <= i < |ids| && ids[i] == id;
      assert events[i].change.Key().1 == id;
    }
  }

  lemma ScanIsExact(prior: Records, next: Records, gone: seq<string>, kept: seq<string>, events: seq<DeviceEvent>)
    requires Filed(prior) && Filed(next) && Visits(prior, next, gone, kept)
    requires |events| == |ScanChanges(prior, next, gone, kept)|
    requires forall i :: 0 <= i < |events| ==> events[i].change == ScanChanges(prior, next, gone, kept)[i]
    ensures ExactDiff(prior, next, events)
  {
    var at := UpsertPositions(prior, next, InfoOf, kept);
    var ids, edits := Announced(gone, kept, at), Upserts(prior, next, InfoOf, kept);
    assert |events| == |ids|;
    AnnouncedOnce(gone, kept, at);
    forall i | 0 <= i < |ids|
      ensures Announces(prior, next, events[i].change) && events[i].change.Key().1 == ids[i]
    {
      ScanChangeAt(prior, next, gone, kept, i);
      ScanAnnounces(prior, next, gone, kept, edits, at, i, events[i].change);
    }
    forall id | Moved(prior, next, id) ensures id in ids { AnnouncedAll(prior, next, gone, kept, at, id); }
    ExactWhen(prior, next, events, ids);
  }

  /** A scan that finds the inventory as it was has nothing to announce. */
  lemma NothingMoved(records: Records, events: seq<DeviceEvent>)
    requires TrueDiff(records, records, events)
    ensures events == []
  {
    assert events != [] ==> Announces(records, records, events[0].change);
  }

  // ----- The actor -----

  ghost predicate UniqueIds(scan: seq<DeviceRecord>, n: nat)
    requires n <= |scan|
  {
    forall i, j :: 0 <= i < j < n ==> scan[i].info.deviceId != scan[j].info.deviceId
  }

  ghost predicate AllValid(rules: Rules, scan: seq<DeviceRecord>, n: nat)
    requires n <= |scan|
  {
    forall i :: 0 <= i < n ==> scan[i].Valid(rules)
  }

  /** The first `n` records by device ID. */
  ghost function Indexed(scan: seq<DeviceRecord>, n: nat): Records
    requires n <= |scan|
  {
    if n == 0 then map[] else Indexed(scan, n - 1)[scan[n - 1].info.deviceId := scan[n - 1]]
  }

  lemma {:induction false} IndexedSize(scan: seq<DeviceRecord>, n: nat)
    requires n <= |scan|
    ensures |Indexed(scan, n).Keys| <= n
  {
    if n == 0 {
    } else {
      IndexedSize(scan, n - 1);
      assert Indexed(scan, n).Keys == Indexed(scan, n - 1).Keys + {scan[n - 1].info.deviceId};
    }
  }

  lemma {:induction false} IndexedId(scan: seq<DeviceRecord>, n: nat, id: string)
    requires n <= |scan|
    ensures id in Indexed(scan, n) <==> exists i :: 0 <= i < n && scan[i].info.deviceId == id
  {
    if n == 0 {
    } else {
      IndexedId(scan, n - 1, id);
    }
  }

  /** Nothing is lost or invented by filing a scan whose IDs are unique. */
  lemma {:induction false} IndexedRecords(scan: seq<DeviceRecord>, n: nat)
    requires n <= |scan| && UniqueIds(scan, n)
    ensures forall i :: 0 <= i < n ==>
              scan[i].info.deviceId in Indexed(scan, n) && Indexed(scan, n)[scan[i].info.deviceId] == scan[i]
    ensures forall id :: id in Indexed(scan, n) ==>
              exists i :: 0 <= i < n && scan[i].info.deviceId == id && Indexed(scan, n)[id] == scan[i]
  {
    if n == 0 {
    } else {
      IndexedRecords(scan, n - 1);
    }
  }

  ghost predicate Admissible(rules: Rules, scan: seq<DeviceRecord>) {
    |scan| <= MAX_DEVICES && AllValid(rules, scan, |scan|) && UniqueIds(scan, |scan|)
  }

  lemma IndexedValid(rules: Rules, scan: seq<DeviceRecord>)
    requires Admissible(rules, scan)
    ensures ValidRecords(rules, Indexed(scan, |scan|))
  {
    IndexedSize(scan, |scan|);
    IndexedRecords(scan, |scan|);
    forall id | id in Indexed(scan, |scan|)
      ensures Indexed(scan, |scan|)[id].Valid(rules)
                && Indexed(scan, |scan|)[id].info.Key() == (CHROMIACAST_BACKEND_ID, id)
    {
      IndexedId(scan, |scan|, id);
    }
  }

  /** Why a scan is refused: its size, or the first record that cannot be admitted. */
  ghost predicate Refusal(rules: Rules, scan: seq<DeviceRecord>, error: DiscoveryActorError) {
    if |scan| > MAX_DEVICES then error == TooManyDevices
    else exists n :: 0 <= n < |scan| && FaultAt(rules, scan, n, error)
  }

  ghost predicate FaultAt(rules: Rules, scan: seq<DeviceRecord>, n: nat, error: DiscoveryActorError)
    requires n < |scan|
  {
    && AllValid(rules, scan, n) && UniqueIds(scan, n)
    && if scan[n].Valid(rules)
       then error == DuplicateDevice(scan[n].info.deviceId) && !UniqueIds(scan, n + 1)
       else error == InvalidDevice
  }

  /** The validation loop of `apply_scan`. */
  method IndexScan(rules: Rules, scan: seq<DeviceRecord>) returns (r: Result<Records, DiscoveryActorError>)
    ensures r.Ok? <==> Admissible(rules, scan)
    ensures r.Ok? ==> r.value == Indexed(scan, |scan|)
    ensures r.Err? ==> Refusal(rules, scan, r.error)
  {
    if |scan| > MAX_DEVICES {
      return Err(TooManyDevices);
    }
    var next: Records := map[];
    for n := 0 to |scan|
      invariant AllValid(rules, scan, n) && UniqueIds(scan, n)
      invariant next == Indexed(scan, n)
    {
      var record := scan[n];
      if !record.Valid(rules) {
        assert FaultAt(rules, scan, n, InvalidDevice);
        return Err(InvalidDevice);
      }
      var id := record.info.deviceId;
      IndexedId(scan, n, id);
      if id in next {
        assert FaultAt(rules, scan, n, DuplicateDevice(id));
        return Err(DuplicateDevice(id));
      }
      next := next[id := record];
    }
    r := Ok(next);
  }

  /** The first `n` changes have been sent. */
  ghost predicate Sent(start: ActiveDiscovery, changes: seq<Change>, sent: seq<DeviceEvent>, n: nat,
                       now: Option<ActiveDiscovery>, events: seq<DeviceEvent>)
  {
    && n <= |changes| && start.revision + n <= U64_MAX
    && now == Some(start.(revision := start.revision + n))
    && events == sent + Numbered(start.generation, start.revision, changes[..n])
  }

  /** A prefix of the changes is sent, the inventory stays, and the error names the limit that was met. */
  ghost predicate CutShort(start: ActiveDiscovery, changes: seq<Change>, room: nat, sent: seq<DeviceEvent>,
                           now: Option<ActiveDiscovery>, events: seq<DeviceEvent>, error: DiscoveryActorError)
  {
    var headroom := U64_MAX - start.revision;
    && Min(headroom, room) < |changes|
    && error == (if headroom <= room then RevisionExhausted else Stopped)
    && now == Some(start.(revision := start.revision + Min(headroom, room + 1)))
    && events == sent + Numbered(start.generation, start.revision, changes[..Min(headroom, room)])
  }

  /** All of the diff is sent under consecutive revisions and the scan becomes the inventory, or it is cut short. */
  ghost predicate PublishOutcome(start: ActiveDiscovery, next: Records, changes: seq<Change>, room: nat,
      sent: seq<DeviceEvent>,
                                 now: Option<ActiveDiscovery>, events: seq<DeviceEvent>, r: Result<Unit,
                                     DiscoveryActorError>)
  {
    match r
    case Ok(_) =>
      && |changes| <= room && start.revision + |changes| <= U64_MAX
      && now == Some(start.(revision := start.revision + |changes|, devices := next))
      && events == sent + Numbered(start.generation, start.revision, changes)
    case Err(error) => CutShort(start, changes, room, sent, now, events, error)
  }

  /**
   * What a scan leaves behind. If it is taken over, every difference has been announced exactly once, under consecutive
   * revisions, and the scan is the inventory. It is cut short exactly where the channel or the counter gives out; what
   * was announced by then is true, and the inventory stays.
   */
  ghost predicate Told(start: ActiveDiscovery, next: Records, room: nat, added: seq<DeviceEvent>,
                       now: Option<ActiveDiscovery>, r: Result<Unit, DiscoveryActorError>)
  {
    var headroom := U64_MAX - start.revision;
    && (forall i :: 0 <= i < |added| ==>
          added[i].discoveryGeneration == start.generation && added[i].revision == start.revision + 1 + i)
    && match r
       case Ok(_) =>
         && |added| <= Min(headroom, room)
         && ExactDiff(start.devices, next, added)
         && now == Some(ActiveDiscovery(start.generation, start.revision + |added|, next))
       case Err(error) =>
         && |added| == Min(headroom, room)
         && TrueDiff(start.devices, next, added) && !ExactDiff(start.devices, next, added)
         && error == (if headroom <= room then RevisionExhausted else Stopped)
         && now == Some(start.(revision := start.revision + Min(headroom, room + 1)))
  }

  /** The events a scan has to announce, however many of them are sent. */
  lemma AllNumbered(start: ActiveDiscovery, changes: seq<Change>) returns (all: seq<DeviceEvent>)
    ensures |all| == |changes| && forall i :: 0 <= i < |all| ==> all[i].change == changes[i]
  {
    all := seq(|changes|, i requires 0 <= i < |changes| => DeviceEvent(start.generation, 0, changes[i]));
  }

  /** A proper prefix of the changes leaves a difference out. */
  lemma PrefixIsTrue(prior: Records, next: Records, all: seq<DeviceEvent>, added: seq<DeviceEvent>)
    requires ExactDiff(prior, next, all) && |added| < |all|
    requires forall i :: 0 <= i < |added| ==> added[i].change == all[i].change
    ensures TrueDiff(prior, next, added) && !ExactDiff(prior, next, added)
  {
    forall i | 0 <= i < |added| ensures Announces(prior, next, added[i].change) {
      assert added[i].change == all[i].change;
    }
    var missed := all[|added|].change;
    assert Announces(prior, next, missed);
    if ExactDiff(prior, next, added) {
      assert Moved(prior, next, missed.Key().1);
      assert false;
    }
  }

  lemma PublishTells(start: ActiveDiscovery, next: Records, gone: seq<string>, kept: seq<string>, room: nat,
                     sent: seq<DeviceEvent>, now: Option<ActiveDiscovery>, events: seq<DeviceEvent>,
                     r: Result<Unit, DiscoveryActorError>)
    requires Filed(start.devices) && Filed(next) && Visits(start.devices, next, gone, kept)
    requires PublishOutcome(start, next, ScanChanges(start.devices, next, gone, kept), room, sent, now, events, r)
    ensures sent <= events && Told(start, next, room, events[|sent|..], now, r)
  {
    var changes := ScanChanges(start.devices, next, gone, kept);
    var added := events[|sent|..];
    assert forall i :: 0 <= i < |added| ==> added[i].change == changes[i];
    if r.Ok? {
      ScanIsExact(start.devices, next, gone, kept, added);
    } else {
      var all := AllNumbered(start, changes);
      ScanIsExact(start.devices, next, gone, kept, all);
      PrefixIsTrue(start.devices, next, all, added);
    }
  }

  /** A scan that finds the inventory as it was succeeds and leaves everything as it was. */
  lemma UnmovedTells(start: ActiveDiscovery, room: nat, added: seq<DeviceEvent>, now: Option<ActiveDiscovery>,
                     r: Result<Unit, DiscoveryActorError>)
    requires Told(start, start.devices, room, added, now, r)
    ensures r.Ok? && now == Some(start) && added == []
  {
    NothingMoved(start.devices, added);
  }

  /** What a scan has told the reader, and that a scan which finds nothing new has changed nothing. */
  ghost predicate Published(start: ActiveDiscovery, next: Records, room: nat, sent: seq<DeviceEvent>,
                            events: seq<DeviceEvent>, now: Option<ActiveDiscovery>,
                            r: Result<Unit, DiscoveryActorError>)
  {
    && sent <= events && Told(start, next, room, events[|sent|..], now, r)
    && (next == start.devices ==> r.Ok? && now == Some(start) && events == sent)
  }

  ghost predicate ValidActive(rules: Rules, nextGeneration: u64, active: Option<ActiveDiscovery>) {
    active.Some? ==>
      && 1 <= active.value.generation <= nextGeneration && 1 <= active.value.revision
      && ValidRecords(rules, active.value.devices)
  }

  lemma PublishedValid(rules: Rules, nextGeneration: u64, start: ActiveDiscovery, next: Records, room: nat,
                       sent: seq<DeviceEvent>, events: seq<DeviceEvent>, now: Option<ActiveDiscovery>,
                       r: Result<Unit, DiscoveryActorError>)
    requires ValidActive(rules, nextGeneration, Some(start)) && ValidRecords(rules, next)
    requires Published(start, next, room, sent, events, now, r)
    ensures ValidActive(rules, nextGeneration, now)
  {
    assert now.Some? && now.value.generation == start.generation && now.value.revision >= start.revision;
    assert now.value.devices == if r.Ok? then next else start.devices;
  }

  lemma PublishedWhen(start: ActiveDiscovery, next: Records, room: nat, sent: seq<DeviceEvent>,
                      events: seq<DeviceEvent>, now: Option<ActiveDiscovery>, r: Result<Unit, DiscoveryActorError>)
    requires sent <= events && Told(start, next, room, events[|sent|..], now, r)
    ensures Published(start, next, room, sent, events, now, r)
  {
    if next == start.devices {
      UnmovedTells(start, room, events[|sent|..], now, r);
    }
  }

  /** The changes of a diff, split as the two loops of `apply_scan` produce them. */
  lemma ChangesSplit(prior: Records, next: Records, gone: seq<string>, kept: seq<string>)
    requires Filed(prior)
    requires forall i :: 0 <= i < |gone| ==> gone[i] in prior
    requires forall i :: 0 <= i < |kept| ==> kept[i] in next
    ensures var upserts := Upserts(prior, next, InfoOf, kept);
            WireChanges(DiffEdits(prior, next, InfoOf, gone, kept))
            == seq(|gone|, i requires 0 <= i < |gone| => Removed(prior[gone[i]].info.Identity())) + WireChanges(upserts)
  {
  }

  lemma UpsertChange(prior: Records, next: Records, kept: seq<string>, i: nat, changes: seq<Change>, count: nat)
    requires i < |kept| && count <= |changes|
    requires forall j :: 0 <= j < |kept| ==> kept[j] in next
    requires changes[count..] == WireChanges(Upserts(prior, next, InfoOf, kept))
    ensures var n, step := count + |Upserts(prior, next, InfoOf, kept[..i])|, Upsert(prior, next, InfoOf, kept[i]);
            && count + |Upserts(prior, next, InfoOf, kept[..i + 1])| == n + |step| <= |changes|
            && (step != [] ==> changes[n] == WireChange(step[0]))
  {
    UpsertsStep(prior, next, InfoOf, kept, i);
    assert forall j :: 0 <= j < |changes| - count ==> changes[count + j] == changes[count..][j];
  }

  class DiscoveryActor {
    const rules: Rules
    var nextGeneration: u64
    var active: Option<ActiveDiscovery>
    /** Everything sent on the event channel. */
    var events: seq<DeviceEvent>

    ghost predicate Valid()
      reads this
    {
      ValidActive(rules, nextGeneration, active)
    }

    constructor (rules: Rules)
      ensures this.rules == rules
      ensures Valid() && active.None? && nextGeneration == 0 && events == []
    {
      this.rules := rules;
      nextGeneration, active, events := 0, None, [];
    }

    method Start() returns (r: Result<u64, DiscoveryActorError>)
      requires Valid()
      modifies this
      ensures Valid() && events == old(events)
      ensures old(active).Some? ==> unchanged(this) && r == Ok(old(active).value.generation)
      ensures old(active).None? && old(nextGeneration) == U64_MAX ==> unchanged(this) && r == Err(GenerationExhausted)
      ensures old(active).None? && old(nextGeneration) < U64_MAX ==>
                && nextGeneration == old(nextGeneration) + 1
                && active == Some(ActiveDiscovery(nextGeneration, 1, map[]))
                && r == Ok(nextGeneration)
    {
      if active.Some? {
        return Ok(active.value.generation);
      }
      var next := CheckedSucc(nextGeneration);
      if next.None? {
        return Err(GenerationExhausted);
      }
      nextGeneration := next.value;
      active := Some(ActiveDiscovery(nextGeneration, 1, map[]));
      r := Ok(nextGeneration);
    }

    method Stop(generation: u64) returns (r: Result<Unit, DiscoveryActorError>)
      requires Valid()
      modifies this
      ensures Valid() && events == old(events) && nextGeneration == old(nextGeneration)
      ensures r.Ok? <==> old(active).Some? && old(active).value.generation == generation
      ensures active == if r.Ok? then None else old(active)
      ensures old(active).None? ==> r == Err(NotActive)
      ensures old(active).Some? && r.Err? ==> r == Err(StaleGeneration(old(active).value.generation, generation))
    {
      if active.None? {
        return Err(NotActive);
      }
      if active.value.generation != generation {
        return Err(StaleGeneration(active.value.generation, generation));
      }
      active := None;
      r := Ok(Unit);
    }

    method Snapshot() returns (r: Result<DeviceSnapshot, DiscoveryActorError>)
      requires Valid()
      ensures r == if active.None? then Err(NotActive) else Ok(SnapshotOf(active.value))
    {
      if active.None? {
        return Err(NotActive);
      }
      r := Ok(SnapshotOf(active.value));
    }

    /** Takes the next revision and sends one event; the channel accepts `room` events before its reader is gone. */
    method Emit(ghost start: ActiveDiscovery, ghost changes: seq<Change>, ghost sent: seq<DeviceEvent>,
                n: nat, change: Change, room: nat)
      returns (failure: Option<DiscoveryActorError>)
      requires Sent(start, changes, sent, n, active, events) && n <= room
      requires n < |changes| && change == changes[n]
      modifies this`active, this`events
      ensures failure.None? ==> n < room && Sent(start, changes, sent, n + 1, active, events)
      ensures failure.Some? ==> CutShort(start, changes, room, sent, active, events, failure.value)
    {
      var revision := CheckedSucc(active.value.revision);
      if revision.None? {
        return Some(RevisionExhausted);
      }
      active := Some(active.value.(revision := revision.value));
      if n == room {
        return Some(Stopped);
      }
      NumberedSnoc(start.generation, start.revision, changes, n);
      events := events + [DeviceEvent(active.value.generation, revision.value, change)];
      failure := None;
    }

    method SendRemovals(ghost changes: seq<Change>, gone: seq<string>, room: nat)
      returns (failure: Option<DiscoveryActorError>)
      requires active.Some? && |gone| <= |changes|
      requires forall i :: 0 <= i < |gone| ==>
                 gone[i] in active.value.devices && changes[i] == Removed(active.value.devices[gone[i]].info.Identity())
      modifies this`active, this`events
      ensures failure.None? ==> |gone| <= room && Sent(old(active).value, changes, old(events), |gone|, active, events)
      ensures failure.Some? ==> CutShort(old(active).value, changes, room, old(events), active, events, failure.value)
    {
      ghost var start := active.value;
      for i := 0 to |gone|
        invariant i <= room && Sent(start, changes, old(events), i, active, events)
      {
        failure := Emit(start, changes, old(events), i, Removed(active.value.devices[gone[i]].info.Identity()), room);
        if failure.Some? {
          return;
        }
      }
      failure := None;
    }

    method SendUpsert(ghost start: ActiveDiscovery, ghost changes: seq<Change>, ghost sent: seq<DeviceEvent>,
                      next: Records, id: string, n: nat, room: nat)
      returns (failure: Option<DiscoveryActorError>, count: nat)
      requires Sent(start, changes, sent, n, active, events) && n <= room && id in next
      requires var step := Upsert(start.devices, next, InfoOf, id);
               step != [] ==> n < |changes| && changes[n] == WireChange(step[0])
      modifies this`active, this`events
      ensures failure.None? ==>
                && count == n + |Upsert(start.devices, next, InfoOf, id)| <= room
                && Sent(start, changes, sent, count, active, events)
      ensures failure.Some? ==> CutShort(start, changes, room, sent, active, events, failure.value)
    {
      failure, count := None, n;
      var prior := active.value.devices;
      if id !in prior || prior[id] != next[id] {
        var change := if id !in prior then Added(next[id].info) else Changed(next[id].info);
        failure := Emit(start, changes, sent, n, change, room);
        count := n + 1;
      }
    }

    /** One turn of the loop below. */
    method SendUpsertAt(ghost start: ActiveDiscovery, ghost changes: seq<Change>, ghost sent: seq<DeviceEvent>,
                        next: Records, kept: seq<string>, i: nat, ghost count: nat, n: nat, room: nat)
      returns (failure: Option<DiscoveryActorError>, after: nat)
      requires Sent(start, changes, sent, n, active, events) && count <= n <= room && i < |kept|
      requires forall j :: 0 <= j < |kept| ==> kept[j] in next
      requires changes[count..] == WireChanges(Upserts(start.devices, next, InfoOf, kept))
      requires n - count == |Upserts(start.devices, next, InfoOf, kept[..i])|
      modifies this`active, this`events
      ensures failure.None? ==>
                && count <= after <= room && Sent(start, changes, sent, after, active, events)
                && after - count == |Upserts(start.devices, next, InfoOf, kept[..i + 1])|
      ensures failure.Some? ==> CutShort(start, changes, room, sent, active, events, failure.value)
    {
      UpsertChange(start.devices, next, kept, i, changes, count);
      failure, after := SendUpsert(start, changes, sent, next, kept[i], n, room);
    }

    method SendUpserts(ghost start: ActiveDiscovery, ghost changes: seq<Change>, ghost sent: seq<DeviceEvent>,
                       next: Records, kept: seq<string>, count: nat, room: nat)
      returns (failure: Option<DiscoveryActorError>)
      requires Sent(start, changes, sent, count, active, events) && count <= room
      requires forall i :: 0 <= i < |kept| ==> kept[i] in next
      requires changes[count..] == WireChanges(Upserts(start.devices, next, InfoOf, kept))
      modifies this`active, this`events
      ensures failure.None? ==> |changes| <= room && Sent(start, changes, sent, |changes|, active, events)
      ensures failure.Some? ==> CutShort(start, changes, room, sent, active, events, failure.value)
    {
      var n := count;
      for i := 0 to |kept|
        invariant count <= n <= room && Sent(start, changes, sent, n, active, events)
        invariant n - count == |Upserts(start.devices, next, InfoOf, kept[..i])|
      {
        failure, n := SendUpsertAt(start, changes, sent, next, kept, i, count, n, room);
        if failure.Some? {
          return;
        }
      }
      assert kept[..|kept|] == kept;
      failure := None;
    }

    /** The two sending loops and the installation of the new inventory. */
    method Publish(next: Records, gone: seq<string>, kept: seq<string>, room: nat)
      returns (r: Result<Unit, DiscoveryActorError>)
      requires active.Some? && Filed(active.value.devices) && Visits(active.value.devices, next, gone, kept)
      modifies this`active, this`events
      ensures PublishOutcome(old(active).value, next, ScanChanges(old(active).value.devices, next, gone, kept), room,
                             old(events), active, events, r)
    {
      ghost var start, sent := active.value, events;
      ghost var changes := ScanChanges(start.devices, next, gone, kept);
      ChangesSplit(start.devices, next, gone, kept);
      var failure := SendRemovals(changes, gone, room);
      if failure.None? {
        failure := SendUpserts(start, changes, sent, next, kept, |gone|, room);
      }
      if failure.Some? {
        return Err(failure.value);
      }
      assert changes[..|changes|] == changes;
      active := Some(active.value.(devices := next));
      r := Ok(Unit);
    }

    method PublishScan(next: Records, room: nat) returns (r: Result<Unit, DiscoveryActorError>)
      requires active.Some? && Filed(active.value.devices) && Filed(next)
      modifies this`active, this`events
      ensures var prior := old(active).value.devices;
              var gone, kept := SortedIds(prior.Keys - next.Keys), SortedIds(next.Keys);
              && Visits(prior, next, gone, kept)
              && PublishOutcome(old(active).value, next, ScanChanges(prior, next, gone, kept), room, old(events),
                                active, events, r)
      ensures Published(old(active).value, next, room, old(events), events, active, r)
    {
      ghost var start, sent := active.value, events;
      var gone, kept := SortedIds(active.value.devices.Keys - next.Keys), SortedIds(next.Keys);
      r := Publish(next, gone, kept, room);
      PublishTells(start, next, gone, kept, room, sent, active, events, r);
      PublishedWhen(start, next, room, sent, events, active, r);
    }

    method TakeOver(next: Records, room: nat) returns (r: Result<Unit, DiscoveryActorError>)
      requires Valid() && active.Some? && ValidRecords(rules, next)
      modifies this`active, this`events
      ensures Valid() && Published(old(active).value, next, room, old(events), events, active, r)
    {
      ghost var start, sent := active.value, events;
      r := PublishScan(next, room);
      PublishedValid(rules, nextGeneration, start, next, room, sent, events, active, r);
    }

    method ApplyScan(scan: seq<DeviceRecord>, room: nat) returns (r: Result<Unit, DiscoveryActorError>)
      requires Valid()
      modifies this`active, this`events
      ensures Valid()
      ensures !Admissible(rules, scan) ==> unchanged(this) && r.Err? && Refusal(rules, scan, r.error)
      ensures Admissible(rules, scan) && old(active).None? ==> unchanged(this) && r == Err(NotActive)
      ensures Admissible(rules, scan) && old(active).Some? ==>
                Published(old(active).value, Indexed(scan, |scan|), room, old(events), events, active, r)
    {
      var indexed := IndexScan(rules, scan);
      if indexed.Err? {
        return Err(indexed.error);
      }
      if active.None? {
        return Err(NotActive);
      }
      IndexedValid(rules, scan);
      r := TakeOver(indexed.value, room);
    }
  }

  lemma NumberedSnoc(generation: u64, revision: u64, changes: seq<Change>, n: nat)
    requires n < |changes| && revision + n + 1 <= U64_MAX
    ensures Numbered(generation, revision, changes[..n + 1])
            == Numbered(generation, revision, changes[..n]) + [DeviceEvent(generation, revision + n + 1, changes[n])]
  {
  }
}
