# Verified models of Pronk's actors

Pronk turns Cast receivers into displays. Its processes and actors stay consistent by tagging everything they exchange with
generations and revisions. This project models the cores of those actors in Dafny and proves what they promise over whole
runs, for every interleaving, failure and input the model admits. `dafny verify dfyconfig.toml` checks all of it.

Where the program updates state step by step the model is a class whose methods are proved against functions on values; the
theorems are then proved about those functions. Foreign calls (D-Bus, ioctls, GStreamer, the Cast library) appear as
parameters that say how the call turned out, clocks as `now` parameters, and what other actors do meanwhile as lists of
events. Durations are nanoseconds.

The main operations are proved in two ways: every run keeps what it must keep, and every answer is exactly the one that the
history of the run calls for, said without the operation's own state.

| part | modules |
|---|---|
| replicated device inventory | `Ordering`, `Diff`, `Protocol`, `BackendDiscovery`, `HostInventory`, `EventLog`, `Runs`, `Replication` |
| media session and sender actors | `MediaTrace`, `VideoSender`, `FrameGate`, `VideoSenderInvariant`, `AudioSender`, `MediaSession`, `MediaLedger`, `MediaInvariant`, `MediaRuns`, `StartRuns`, `Lifecycle`, `FeedbackDelivery`, `AudioOwnership`, `MediaMachine` |
| adaptive feedback | `Feedback`, `PlayoutRuns`, `PlayoutPolicy`, `VideoFeedback`, `FeedbackRuns`, `RatePolicy`, `FeedbackPolicy` |
| DRM event decoder | `Framing`, `DrmEvents` |
| CEC transport | `CecTransport`, `CecRuns`, `CecHistory`, `CecClient` |
| capability negotiation | `Negotiation` |
| reconnect supervisor | `Supervisor`, `SupervisorRuns`, `SupervisorMachine` |
| session object paths | `SessionPath` |

The inventory is proved replicated for every pair of record checks that agree with each other (`Protocol.Rules`); the checks
on the wire are one such pair (`Protocol.WireRulesCoherent`).

## Where the code departs from its intent

- A playout decrease is meant to need 15 s of confirmed stability. At the maximum, an observation that reports a new
  retransmission or drop clears the pending increase without raising anything, and the stability clock it has just reset
  counts as elapsed, so the delay is lowered at once. `PlayoutRuns.RecoveryExactly` says exactly when this happens, and
  `PlayoutRuns.SwallowedStepHappens` gives an execution.
- The backend renames the audio profile it matched to `opus-stereo`. The host looks that name up in its own offer and refuses
  the answer when the offer does not have it. `Negotiation.NegotiationSound` is the exact condition, and
  `Negotiation.RenamedProfileRefused` an offer that is answered and then refused.
- A Start that fails cannot be repeated. Its rollback leaves a sender out of its first state, which is the only one Start
  accepts, and Resume is not admitted in that session state. `StartRuns.StartSucceedsExactly` says which states have a Start
  that succeeds, `StartRuns.FailedStartIsFinal` that none follows an admitted Start that failed until its generation is
  stopped, and `StartRuns.FailedStartHappens` gives a run.
- The CEC tracker can admit an unread event of an online interval that has ended. `CecRuns.StaleAdmittedExactly` says exactly
  when: its binding has accepted nothing newer, and nothing as new before its last switch or suspension.
  `CecRuns.UnreadEventAdmitted` gives a run.
- An audio sender the transport has handed out is dropped without a shutdown when the graph refuses the configuration.
  `AudioOwnership.AudioShutDownExactly` says that this is the only case, and `AudioOwnership.AudioSenderLost` gives a run.

## Model

| member | source | states |
|---|---|---|
| `Diff.PatchAfterDiff` | crates/pronk-chromiacast/src/discovery.rs:552-601 | Applying the edits of a diff to the old map, in any visiting order, succeeds at every edit and gives exactly the new map. |
| `Ordering.SharedPrefixOrder` | crates/pronk-backend-host/src/inventory.rs:93-99 | Backend and host iterate the same inventory in the same order although they key it differently. |
| `Protocol.WireRulesCoherent` | crates/pronk-backend-host/src/inventory.rs:202-222 | A device record that passes its check yields an identity that passes the check for removals. |
| `BackendDiscovery.ScanFitsQueue` | crates/pronk-chromiacast/src/discovery.rs:552-601 | The diff of two admissible inventories has at most as many events as both have devices. |
| `BackendDiscovery.ReplayScan` | crates/pronk-chromiacast/src/discovery.rs:552-601 | The changes sent for a scan, replayed on the previous inventory, all apply and give the scanned inventory. |
| `BackendDiscovery.ScanIsExact` | crates/pronk-chromiacast/src/discovery.rs:552-601 | A scan announces a device as added, changed or removed exactly when it is only in the scan, in both with different records, or only in the inventory, and no device twice. |
| `BackendDiscovery.PublishTells` | crates/pronk-chromiacast/src/discovery.rs:552-601 | A scan taken over has announced exactly its differences under consecutive revisions; one that is cut short stops where the channel or the counter gives out, has announced nothing untrue and left a difference out. |
| `BackendDiscovery.UnmovedTells` | crates/pronk-chromiacast/src/discovery.rs:579-600 | A scan equal to the inventory succeeds, announces nothing and moves no revision. |
| `BackendDiscovery.IndexedRecords` | crates/pronk-chromiacast/src/discovery.rs:519-550 | Filing a scan with unique identifiers neither loses nor invents a record. |
| `BackendDiscovery.IndexScan` | crates/pronk-chromiacast/src/discovery.rs:516-550 | The validation loop files every record, or names the first reason for refusing the scan. |
| `BackendDiscovery.DiscoveryActor.constructor` | crates/pronk-chromiacast/src/discovery.rs:373-380 | The actor starts idle, with no generation used and nothing sent. |
| `BackendDiscovery.DiscoveryActor.Start` | crates/pronk-chromiacast/src/discovery.rs:442-460 | Starting takes the next generation with an empty inventory at revision one, or reports why not and changes nothing. |
| `BackendDiscovery.DiscoveryActor.Stop` | crates/pronk-chromiacast/src/discovery.rs:462-475 | Stopping ends exactly the active generation. |
| `BackendDiscovery.DiscoveryActor.Snapshot` | crates/pronk-chromiacast/src/discovery.rs:477-491 | A snapshot lists the active inventory in order at its revision, for the active generation only. |
| `BackendDiscovery.DiscoveryActor.Emit` | crates/pronk-chromiacast/src/discovery.rs:605-609 | Each event takes the next revision, until the revisions or the reader run out. |
| `BackendDiscovery.DiscoveryActor.SendRemovals` | crates/pronk-chromiacast/src/discovery.rs:557-578 | Vanished devices are sent as removals under consecutive revisions. |
| `BackendDiscovery.DiscoveryActor.SendUpserts` | crates/pronk-chromiacast/src/discovery.rs:579-600 | New and differing devices are sent as additions and changes, unchanged ones not at all (what is sent is exactly the difference: `BackendDiscovery.ScanIsExact`). |
| `BackendDiscovery.DiscoveryActor.Publish` | crates/pronk-chromiacast/src/discovery.rs:552-601 | The whole diff is sent and the scan becomes the inventory, or a prefix is sent, the inventory stays and an error is returned. |
| `BackendDiscovery.DiscoveryActor.PublishScan` | crates/pronk-chromiacast/src/discovery.rs:552-603 | Removals go first and devices in sorted order; the events added are exactly the differences, or a true prefix of them when the scan is cut short. |
| `BackendDiscovery.DiscoveryActor.ApplyScan` | crates/pronk-chromiacast/src/discovery.rs:511-603 | A scan is refused with its reason, refused when no generation is active, or published: the events added announce every difference exactly once and nothing else, and a scan equal to the inventory changes nothing. |
| `HostInventory.DeviceInventory.FromSnapshot` | crates/pronk-backend-host/src/inventory.rs:70-91 | A valid snapshot of the expected backend becomes the inventory it lists; any other is refused as invalid, or for its first device of another backend. |
| `HostInventory.DeviceInventory.Apply` | crates/pronk-backend-host/src/inventory.rs:101-166 | One event: applied, ignored as covered or duplicate, or refused, with the inventory unchanged unless applied. |
| `HostInventory.AppliedExactly` | crates/pronk-backend-host/src/inventory.rs:101-166 | Each outcome of an event and exactly when it has it; an applied event changes its one device, and any other changes nothing. |
| `HostInventory.AppliedOnce` | crates/pronk-backend-host/src/inventory.rs:114-120 | An applied event that comes again is a duplicate, and a different event of its revision a conflict. |
| `HostInventory.FetchSnapshot` | crates/pronk-backend-host/src/discovery.rs:400-416 | A fetched snapshot is adopted only for the generation asked for. |
| `HostInventory.ProcessEvent` | crates/pronk-backend-host/src/discovery.rs:364-398 | An event that is refused is answered by a fresh snapshot, and the inventory is replaced as a whole. |
| `EventLog.ApplyNext` | crates/pronk-backend-host/src/inventory.rs:121-165 | The genuine event of the next revision is applied, and the inventory then is the backend's at that revision. |
| `EventLog.ApplyGenuine` | crates/pronk-backend-host/src/inventory.rs:101-166 | A genuine event is applied, ignored or a gap; conflicts and impossible changes do not occur. |
| `EventLog.ApplyStale` | crates/pronk-backend-host/src/inventory.rs:103-108 | A genuine event of another generation is only ever a generation mismatch. |
| `EventLog.ScanExtends` | crates/pronk-chromiacast/src/discovery.rs:552-601 | Every prefix of a scan's events extends the log genuinely, and all of them lead to the scanned inventory. |
| `EventLog.SnapshotGenuine` | crates/pronk-chromiacast/src/discovery.rs:477-491 | What the backend lists is its inventory at that revision, and the host can adopt it. |
| `EventLog.SnapshotListed` | crates/pronk-backend-host/src/inventory.rs:93-99 | Host and backend list the same inventory in the same order. |
| `EventLog.ReplayLog` | crates/pronk-backend-host/src/inventory.rs:110-165 | From any genuine position the following events are all applied, in order. |
| `EventLog.HostReplaysScan` | crates/pronk-backend-host/src/inventory.rs:132-165 | A host that holds the inventory before a scan accepts every event of it and ends with exactly the scanned inventory. |
| `Replication.StepKeeps` | crates/pronk-backend-host/src/discovery.rs:364-416 | Every step of backend, channel and host keeps logs genuine and the replica faithful. |
| `Replication.ReplicaIsHistorical` | crates/pronk-backend-host/src/discovery.rs:364-416 | In every run, under loss, reordering and duplication, the host's inventory is the backend's own at the host's revision. |
| `Replication.OnlyGapsResynchronize` | crates/pronk-backend-host/src/inventory.rs:101-166 | In every run a delivery is refused only as a gap or as belonging to another generation. |
| `Replication.RevisionNeverDecreases` | crates/pronk-backend-host/src/discovery.rs:364-416 | Within one host session the replica's revision never goes back, not even across resynchronizations. |
| `Replication.Converges` | crates/pronk-backend-host/src/discovery.rs:371-396 | Once the newest event has been delivered, a host that tracks again holds and lists exactly the backend's inventory. |
| `MediaTrace.IntactChain` | crates/pronk-chromiacast/src/sender_actor.rs:648-705 | An unbroken trace has an accepted key frame or the start of the generation, with nothing lost since. |
| `MediaTrace.StartsWithKeyFrame` | crates/pronk-media/src/vp8.rs:78-98 | In a decodable trace of frames that passed this check, the first frame accepted in a generation carries the key-frame bit and the start code. |
| `VideoSender.VideoSenderActor.constructor` | crates/pronk-chromiacast/src/sender_actor.rs:72-93 | The actor starts empty, with nothing completed. |
| `VideoSender.VideoSenderActor.ConfigureActive` | crates/pronk-chromiacast/src/sender_actor.rs:517-581 | A newer generation is taken with fresh flags and counters when none is active; otherwise the sender is shut down. |
| `VideoSender.VideoSenderActor.TransitionActive` | crates/pronk-chromiacast/src/sender_actor.rs:764-791 | Start, suspend and resume move the matching generation from the one state each requires. |
| `VideoSender.VideoSenderActor.ProcessTransportFeedback` | crates/pronk-chromiacast/src/sender_actor.rs:583-633 | Requests, congestion changes and unacknowledged first frames close the gate, and are published when a key frame could pass. |
| `VideoSender.VideoSenderActor.ForwardAccessUnit` | crates/pronk-chromiacast/src/sender_actor.rs:635-714 | What becomes of a unit, of the gate and of the counters, in every case of tag, gate and transport answer (which units pass, in terms of the reports: `MediaRuns.HandedExactly`). |
| `VideoSender.VideoSenderActor.PublishFeedback` | crates/pronk-chromiacast/src/sender_actor.rs:716-734 | Published feedback counts requests, saturating, and keeps the last pressure. |
| `VideoSender.VideoSenderActor.FailActive` | crates/pronk-chromiacast/src/sender_actor.rs:736-762 | A failed generation stays, without its sender, which is shut down. |
| `VideoSender.VideoSenderActor.StopActive` | crates/pronk-chromiacast/src/sender_actor.rs:806-828 | Stopping releases the generation and its sender even when the shutdown fails; only success completes it. |
| `VideoSender.VideoSenderActor.ShutdownActive` | crates/pronk-chromiacast/src/sender_actor.rs:830-838 | Shutdown releases whatever is active. |
| `VideoSender.VideoSenderActor.Turn` | crates/pronk-chromiacast/src/sender_actor.rs:361-431 | Units are taken only while streaming, and feedback only while its channel is open. |
| `FrameGate.TakeExact` | crates/pronk-chromiacast/src/sender_actor.rs:583-714 | Every turn hands over exactly the frames that the reports and refusals since the configuration let pass, requests key frames exactly where they call for one, and publishes what was reported. |
| `FrameGate.ConfigureTaken` | crates/pronk-chromiacast/src/sender_actor.rs:517-581 | A generation is taken, with fresh counters, exactly when none is active, it is newer and no audio sender comes with it; otherwise its sender is shut down. |
| `FrameGate.TransitTaken` | crates/pronk-chromiacast/src/sender_actor.rs:764-791 | A transition succeeds exactly for the matching generation in the state before it, and changes nothing but the state. |
| `FrameGate.StopTaken` | crates/pronk-chromiacast/src/sender_actor.rs:806-828 | Stopping gives up the generation and its sender; it is completed exactly when the sender has shut down well. |
| `VideoSenderInvariant.TakeKeeps` | crates/pronk-chromiacast/src/sender_actor.rs:597-714 | Every turn keeps the accepted stream decodable, the gate closed over gaps, the need for a key frame announced, and the counters exact. |
| `VideoSenderInvariant.CountedOnce` | crates/pronk-chromiacast/src/sender_actor.rs:644-704 | Accepted and dropped units together are the units whose forwarding did not fail. |
| `AudioSender.AudioSenderActor.constructor` | crates/pronk-chromiacast/src/audio_sender_actor.rs:55-69 | The audio actor starts empty. |
| `AudioSender.AudioSenderActor.ConfigureActive` | crates/pronk-chromiacast/src/audio_sender_actor.rs:349-384 | A newer generation is taken with its sender when none is active; otherwise the sender is shut down. |
| `AudioSender.AudioSenderActor.TransitionActive` | crates/pronk-chromiacast/src/audio_sender_actor.rs:386-413 | Start, suspend and resume move the matching generation from the one state each requires. |
| `AudioSender.ForwardCounted` | crates/pronk-chromiacast/src/audio_sender_actor.rs:415-453 | Every packet of a generation is counted once, as sent or dropped, unless its forwarding fails. |
| `AudioSender.PacketsExactly` | crates/pronk-chromiacast/src/audio_sender_actor.rs:415-453 | Through any stretch of packets that does not break the generation: its own accepted packets and their bytes are counted as sent, all others as dropped. |
| `AudioSender.BreaksExactly` | crates/pronk-chromiacast/src/audio_sender_actor.rs:415-474 | A packet of the generation on which the transport fails, or the end of the source, and nothing else, fails the generation and shuts its sender down. |
| `AudioSender.ConfigureAudioTaken` | crates/pronk-chromiacast/src/audio_sender_actor.rs:349-384 | A generation is taken exactly when none is active and it is newer; otherwise its sender is shut down. |
| `AudioSender.StopAudioTaken` | crates/pronk-chromiacast/src/audio_sender_actor.rs:476-498 | Stopping gives up the generation and its sender; it is completed exactly when the sender has shut down well. |
| `AudioSender.AudioSenderActor.Forward` | crates/pronk-chromiacast/src/audio_sender_actor.rs:415-453 | A packet is sent, dropped or fails the generation, and the counters stay exact. |
| `AudioSender.AudioSenderActor.FailActive` | crates/pronk-chromiacast/src/audio_sender_actor.rs:455-474 | A failed generation stays, without its sender, which is shut down. |
| `AudioSender.AudioSenderActor.StopActive` | crates/pronk-chromiacast/src/audio_sender_actor.rs:476-498 | Stopping releases the generation even when the shutdown fails; only success completes it. |
| `AudioSender.AudioSenderActor.ShutdownActive` | crates/pronk-chromiacast/src/audio_sender_actor.rs:500-508 | Shutdown releases whatever is active. |
| `AudioSender.AudioSenderActor.Turn` | crates/pronk-chromiacast/src/audio_sender_actor.rs:237-271 | Packets are taken only while streaming. |
| `MediaMachine.ChromiacastMediaSession.constructor` | crates/pronk-chromiacast/src/media.rs:226-252 | A new session is Created, with empty actors. |
| `MediaMachine.ChromiacastMediaSession.Elapse` | crates/pronk-chromiacast/src/sender_actor.rs:361-431 | The actors take up the given events in order while the session awaits a reply. |
| `MediaMachine.ChromiacastMediaSession.CompletePreparation` | crates/pronk-chromiacast/src/media.rs:285-301 | Only a Created session becomes Prepared. |
| `MediaMachine.ChromiacastMediaSession.Refuse` | crates/pronk-chromiacast/src/media.rs:311-332 | The reasons for refusing ConfigureMedia, in the order they are checked. |
| `MediaMachine.ChromiacastMediaSession.Admit` | crates/pronk-chromiacast/src/media.rs:335-347 | The generation is owned before any port is asked. |
| `MediaMachine.ChromiacastMediaSession.TakeSenders` | crates/pronk-chromiacast/src/media.rs:379-414 | The audio actor, then the video actor takes its sender; every mismatch shuts the video sender down. |
| `MediaMachine.ChromiacastMediaSession.Configure` | crates/pronk-chromiacast/src/media.rs:303-416 | The session, both actors and the trace after ConfigureMedia, on every success and failure path; refused without effect, or successful exactly when the ports agree and audio matches; the run invariant is kept and no actor rejects what was admitted. |
| `MediaMachine.ChromiacastMediaSession.WaitForMediaConfirmation` | crates/pronk-chromiacast/src/media.rs:945-985 | Confirmation needs each counter to pass its previous value while the sender has not failed. |
| `MediaMachine.ChromiacastMediaSession.SuspendSendersBestEffort` | crates/pronk-chromiacast/src/media.rs:987-996 | Rollback suspends whichever senders still run. |
| `MediaMachine.ChromiacastMediaSession.Start` | crates/pronk-chromiacast/src/media.rs:481-522 | The system after Start, with its rollbacks; success means that the graph agreed and the senders run, failure names its cause and leaves the session as it was and no sender running; the run invariant is kept. |
| `MediaMachine.ChromiacastMediaSession.Suspend` | crates/pronk-chromiacast/src/media.rs:524-550 | The system after Suspend, with its rollbacks; a refused graph changes nothing, success means that the graph agreed and every sender is suspended, failure that a sender has failed; the run invariant is kept. |
| `MediaMachine.ChromiacastMediaSession.Resume` | crates/pronk-chromiacast/src/media.rs:552-588 | The system after Resume, with its rollbacks; success means that the graph agreed and the senders run, failure names its cause and leaves the session as it was and no sender running; the run invariant is kept. |
| `MediaMachine.ChromiacastMediaSession.StopMedia` | crates/pronk-chromiacast/src/media.rs:590-691 | StopMedia returns to Prepared whatever the teardowns answer, reports the first failure and keeps the run invariant. |
| `MediaMachine.ChromiacastMediaSession.Shutdown` | crates/pronk-chromiacast/src/media.rs:737-766 | Shutdown empties both actors, ends the session whatever the teardowns answer, and reports the first failure. |
| `MediaMachine.ChromiacastMediaSession.HandleFeedback` | crates/pronk-chromiacast/src/media.rs:418-479 | Only feedback of the active, ready generation reaches the controller; the ports are asked exactly for its actions, in order up to the first that fails, whatever the actors do before each request, and the answer is that port's. |
| `MediaLedger.TakeOwns` | crates/pronk-chromiacast/src/sender_actor.rs:736-749 | An actor's event shuts down the sender it drops, and no other. |
| `MediaInvariant.DriftKeeps` | crates/pronk-chromiacast/src/sender_actor.rs:361-431 | Left to themselves the actors keep their generations and all invariants; at most they fail. |
| `MediaInvariant.ConfigureMediaKeeps` | crates/pronk-chromiacast/src/media.rs:303-416 | ConfigureMedia keeps the invariant on every path, and no actor rejects what was admitted. |
| `MediaInvariant.BringUpKeeps` | crates/pronk-chromiacast/src/media.rs:481-588 | Start and Resume keep the invariant on every path; no sender is left running after a failure. |
| `MediaInvariant.SuspendMediaKeeps` | crates/pronk-chromiacast/src/media.rs:524-550 | Suspend keeps the invariant on every path. |
| `MediaInvariant.StopMediaKeeps` | crates/pronk-chromiacast/src/media.rs:590-691 | StopMedia keeps the invariant even when teardowns fail. |
| `MediaInvariant.ShutdownSessionKeeps` | crates/pronk-chromiacast/src/media.rs:737-766 | Shutdown keeps the invariant even when teardowns fail. |
| `MediaInvariant.HandleFeedbackKeeps` | crates/pronk-chromiacast/src/media.rs:418-479 | Feedback keeps the count of forced key frames below the requests. |
| `MediaInvariant.ApplyKeeps` | crates/pronk-chromiacast/src/media.rs:285-766 | Every operation and every actor event keeps the invariant. |
| `MediaRuns.StreamIsDecodable` | crates/pronk-chromiacast/src/sender_actor.rs:597-714 | In every run each accepted delta follows an unbroken run of accepted frames back to a key frame or the generation's start. |
| `MediaRuns.StreamStartsWithKeyFrame` | crates/pronk-media/src/vp8.rs:60-101 | In every run whose frames passed the encoder's check, the first frame the transport accepts in a generation is a key frame. |
| `MediaRuns.Lockstep` | crates/pronk-chromiacast/src/media.rs:303-691 | Active exactly in Configured, Streaming and Suspended; Prepared means empty actors; actors never complete beyond the session; streaming states are ready; a sender streams only in a streaming session. |
| `MediaRuns.AdmittedNeverRejected` | crates/pronk-chromiacast/src/sender_actor.rs:540-551 | In every run no admitted ConfigureMedia is turned away by an actor. |
| `MediaRuns.NoStaleMedia` | crates/pronk-chromiacast/src/sender_actor.rs:644-647 | In every run generations are handed over in order, and none after its own or a later StopMedia. |
| `MediaRuns.StopCompletes` | crates/pronk-chromiacast/src/media.rs:676-691 | An admitted StopMedia completes its generation even when a teardown fails. |
| `MediaRuns.StopIsIdempotent` | crates/pronk-chromiacast/src/media.rs:598-600 | StopMedia may be repeated with success and without effect until a newer generation is admitted or the session ends. |
| `MediaRuns.SendersShutDownOnce` | crates/pronk-chromiacast/src/media.rs:349-412 | In every run no video sender is shut down twice, and each exactly once by the time the session is Prepared or Stopped. |
| `MediaRuns.UnitsCountedOnce` | crates/pronk-chromiacast/src/sender_actor.rs:644-704 | In every run the counters are the saturated numbers of accepted, dropped and key frames of the generation and of its accepted bytes. |
| `MediaRuns.HandedExactly` | crates/pronk-chromiacast/src/sender_actor.rs:644-650 | In every run a frame of the generation in force is handed to the transport if and only if it is a key frame without congestion or before the first acknowledgement, or a delta with neither congestion nor a key frame owed, all read off the reports and refusals since the configuration. |
| `MediaRuns.FramesRecorded` | crates/pronk-chromiacast/src/sender_actor.rs:635-714 | In every state of a run a frame given to a streaming actor leaves its mark in the trace, with the transport's answer if it is handed over. |
| `MediaRuns.OthersIgnoredInRuns` | crates/pronk-chromiacast/src/sender_actor.rs:361-431 | In every state of a run frames reach only a streaming actor, and reports only one that has not failed. |
| `MediaRuns.RequestedExactly` | crates/pronk-chromiacast/src/sender_actor.rs:597-624 | In every run a key frame is requested right after a refusal, a report that demands one and a report that ends the congestion, and nowhere else. |
| `MediaRuns.PublishedExactly` | crates/pronk-chromiacast/src/sender_actor.rs:716-762 | In every run the published feedback is the generation's requests, last pressure and last acknowledgement, and is terminal exactly when its sender has failed. |
| `MediaRuns.RefusalIsAnnounced` | crates/pronk-chromiacast/src/sender_actor.rs:597-624 | In every run an actor that refuses deltas without congestion has requested a key frame since it last accepted one. |
| `MediaRuns.ForcedWithinRequested` | crates/pronk-chromiacast/src/feedback.rs:102-108 | In every run no more key frames are forced in a generation than the actor requested in it. |
| `MediaRuns.BringUpDelivers` | crates/pronk-chromiacast/src/media.rs:481-588 | A Start or Resume that succeeds has seen the transport accept an access unit, and the receiver acknowledge more frames than before. |
| `StartRuns.StartSucceedsExactly` | crates/pronk-chromiacast/src/media.rs:481-522 | Some Start succeeds if and only if the generation is admitted and ready, its senders are in their first state and the counters Start waits on can grow. |
| `StartRuns.ResumeSucceedsExactly` | crates/pronk-chromiacast/src/media.rs:552-588 | Some Resume succeeds if and only if the generation is active and suspended with all its senders and the counters Resume waits on can grow. |
| `StartRuns.FailedStartSpends` | crates/pronk-chromiacast/src/media.rs:490-519 | An admitted Start that fails, for whatever reason, leaves a generation that is not ready or has a sender out of its first state. |
| `StartRuns.FailedStartIsFinal` | crates/pronk-chromiacast/src/sender_actor.rs:771-781 | In every run, after an admitted Start has failed no Start succeeds until an admitted StopMedia or the end of the session. |
| `StartRuns.FailedStartHappens` | crates/pronk-chromiacast/src/media.rs:503-506 | A run in which the graph refuses a startable generation once, and the next Start of it fails too, whatever happens during it. |
| `Lifecycle.CreatedUntilPrepared` | crates/pronk-chromiacast/src/media.rs:285-301 | In every run the session is Created exactly until the first valid Prepare or its end. |
| `Lifecycle.ConfigureExactly` | crates/pronk-chromiacast/src/media.rs:303-416 | ConfigureMedia is refused without effect and with its reason, or admits the generation; it succeeds if and only if transport and graph agree and an audio sender comes exactly where audio is wanted, and then both actors hold their senders and the controller is fresh. |
| `Lifecycle.StartExactly` | crates/pronk-chromiacast/src/media.rs:481-522 | Every answer of Start and what it means for session and senders. |
| `Lifecycle.SuspendExactly` | crates/pronk-chromiacast/src/media.rs:524-550 | Every answer of Suspend: a refused graph changes nothing; success means a willing graph and suspended senders; an error means a failed sender and an unchanged session. |
| `Lifecycle.SuspendSucceedsExactly` | crates/pronk-chromiacast/src/media.rs:524-550 | Some Suspend succeeds if and only if the session is Streaming and no sender has failed. |
| `Lifecycle.ResumeExactly` | crates/pronk-chromiacast/src/media.rs:552-588 | Every answer of Resume: success means a willing graph and running senders; after an error no sender runs, the session is as it was, and the error is the graph's, the confirmation's, or that of a failed sender. |
| `Lifecycle.StopExactly` | crates/pronk-chromiacast/src/media.rs:590-691 | Every answer of StopMedia, and that an admitted one empties both actors whatever the teardowns answer. |
| `Lifecycle.ShutdownExactly` | crates/pronk-chromiacast/src/media.rs:737-766 | Shutdown empties both actors and reports the first of the failures there were. |
| `FeedbackDelivery.FeedbackExactly` | crates/pronk-chromiacast/src/media.rs:418-479 | The requests that reach the ports are those of the controller's actions for that snapshot and time, in order, up to the first that fails; the answer is that port's, and the bitrate is what the graph answered. |
| `FeedbackDelivery.FeedbackDelivered` | crates/pronk-chromiacast/src/media.rs:418-479 | If the ports agree and the sender lasts, the ports are asked exactly for the controller's actions and the answer is success. |
| `AudioOwnership.ApplyOwns` | crates/pronk-chromiacast/src/media.rs:349-412 | Every operation and every actor event keeps the account of audio senders exact. |
| `AudioOwnership.AudioShutDownExactly` | crates/pronk-chromiacast/src/media.rs:349-412 | In every run no audio sender is shut down twice, and by Prepared or Stopped exactly those are that were handed out and whose configuration the graph accepted. |
| `AudioOwnership.AudioSenderLost` | crates/pronk-chromiacast/src/media.rs:353-356 | A run in which the graph refuses: the video sender is shut down and the audio sender is not. |
| `Feedback.WholeMilliseconds` | crates/pronk-chromiacast/src/feedback.rs:316-323 | Rounds up to whole milliseconds, by less than one. |
| `Feedback.AdaptivePlayoutDelayController.constructor` | crates/pronk-chromiacast/src/feedback.rs:192-213 | The bounds and the initial target. |
| `Feedback.AdaptivePlayoutDelayController.Adjust` | crates/pronk-chromiacast/src/feedback.rs:305-313 | A new target starts a new handshake. |
| `Feedback.AdaptivePlayoutDelayController.Observe` | crates/pronk-chromiacast/src/feedback.rs:215-303 | The controller after an observation, and its action (which action, in terms of the observations: `PlayoutPolicy.FollowsPolicy`). |
| `PlayoutRuns.TargetMovesOnConfirmation` | crates/pronk-chromiacast/src/feedback.rs:215-303 | In every run the target stays within its bounds and moves only when the receiver reports it. |
| `PlayoutRuns.ThreeSendsPerHandshake` | crates/pronk-chromiacast/src/feedback.rs:244-272 | In every run a target is sent at most three times before the receiver reports it. |
| `PlayoutRuns.RetriesAreSpaced` | crates/pronk-chromiacast/src/feedback.rs:244-272 | In every run two sends of one handshake are at least two seconds apart. |
| `PlayoutRuns.SilentAfterDisable` | crates/pronk-chromiacast/src/feedback.rs:215-272 | After giving up, no playout action is ever returned. |
| `PlayoutRuns.RecoveryExactly` | crates/pronk-chromiacast/src/feedback.rs:273-301 | Every decrease in a run has 15 s of confirmed stability behind it, if and only if no decrease takes the swallowed-step branch. |
| `PlayoutRuns.SwallowedStepHappens` | crates/pronk-chromiacast/src/feedback.rs:273-301 | An execution that takes that branch. |
| `PlayoutPolicy.FollowsPolicy` | crates/pronk-chromiacast/src/feedback.rs:215-303 | In every execution each answer is the one a policy on observations and earlier answers calls for: when to send again and give up, when to raise and lower, and by how much. |
| `PlayoutPolicy.RaisedExactly` | crates/pronk-chromiacast/src/feedback.rs:273-287 | In every execution an observation raises the target if and only if adaptation has not ended, the target is reported, has not moved for a second and is below the maximum, and a loss is unanswered or three round trips exceed it; and to what. |
| `PlayoutPolicy.UnansweredExactly` | crates/pronk-chromiacast/src/feedback.rs:225-240 | A loss is unanswered if and only if no observation from the one that reported it on could have raised the target. |
| `VideoFeedback.NewRate` | crates/pronk-chromiacast/src/feedback.rs:74-94 | The floor lies between one and the ceiling, where the bitrate starts. |
| `VideoFeedback.Requested` | crates/pronk-chromiacast/src/feedback.rs:121-188 | A requested bitrate lies within the bounds and differs from the current one. |
| `VideoFeedback.VideoFeedbackController.constructor` | crates/pronk-chromiacast/src/feedback.rs:74-94 | A fresh controller. |
| `VideoFeedback.VideoFeedbackController.ObservePressure` | crates/pronk-chromiacast/src/feedback.rs:121-156 | The bitrate part after an observation, and the requested bitrate. |
| `VideoFeedback.VideoFeedbackController.Observe` | crates/pronk-chromiacast/src/feedback.rs:96-119 | The three policies do not disturb one another and act in a fixed order. |
| `FeedbackRuns.ProjectRate` | crates/pronk-chromiacast/src/feedback.rs:109-118 | The bitrate requests of an execution are exactly its bitrate actions. |
| `FeedbackRuns.ProjectKeys` | crates/pronk-chromiacast/src/feedback.rs:102-108 | The forced key frames of an execution are exactly its key-frame actions, at most one per observation. |
| `FeedbackRuns.BitrateBounded` | crates/pronk-chromiacast/src/feedback.rs:121-188 | In every run the bitrate stays between floor and ceiling. |
| `FeedbackRuns.BitrateChangesAreSpaced` | crates/pronk-chromiacast/src/feedback.rs:121-177 | In every run changes are a second apart, and increases five seconds after any change before them. |
| `FeedbackRuns.OverloadDecays` | crates/pronk-chromiacast/src/feedback.rs:121-164 | After n samples a second apart with a full queue, new drops or a loss of 26/256 the bitrate is at the floor or at most (4/5)^n of what it was. |
| `FeedbackRuns.ClearSamplesRestore` | crates/pronk-chromiacast/src/feedback.rs:166-188 | Each clear sample, five seconds apart, raises the bitrate by a step until the ceiling. |
| `FeedbackRuns.CeilingRestored` | crates/pronk-chromiacast/src/feedback.rs:166-188 | As many clear samples as there are steps from floor to ceiling restore the ceiling. |
| `FeedbackRuns.ForcesAreRequested` | crates/pronk-chromiacast/src/feedback.rs:102-108 | Forced key frames never outnumber the requests seen. |
| `FeedbackRuns.ForcesAreSpaced` | crates/pronk-chromiacast/src/feedback.rs:102-108 | Forced key frames are half a second apart, each for a newer request. |
| `RatePolicy.BitrateFollowsPolicy` | crates/pronk-chromiacast/src/feedback.rs:121-188 | In every execution each bitrate request is the one a policy on snapshots and earlier requests calls for: a fifth less under strain, a tenth more after five clear seconds, evaluated once a second. |
| `RatePolicy.ForcedExactly` | crates/pronk-chromiacast/src/feedback.rs:102-108 | In every execution a key frame is forced if and only if more are requested than when one was forced last and that lies half a second back. |
| `FeedbackPolicy.ActionsExactly` | crates/pronk-chromiacast/src/feedback.rs:96-119 | In every execution of a fresh controller the actions are, in order, a key frame, a bitrate and a playout delay, each exactly when and as its history calls for it. |
| `Framing.ParseResumes` | crates/pronk-core/src/castkms_event.rs:168-206 | Parsing a stream resumes from what an error-free parse of its beginning left over. |
| `Framing.EventDecoder.constructor` | crates/pronk-core/src/castkms_event.rs:158-162 | A decoder starts with an empty carry. |
| `Framing.EventDecoder.Fill` | crates/pronk-core/src/castkms_event.rs:168-190 | Bytes move from the input to the carry, up to a size. |
| `Framing.EventDecoder.Push` | crates/pronk-core/src/castkms_event.rs:168-206 | The carry and the result of a push are those of parsing carry and chunk together. |
| `Framing.EventDecoder.Finish` | crates/pronk-core/src/castkms_event.rs:208-219 | The stream may end exactly when the carry is empty. |
| `Framing.ErrorRepeats` | crates/pronk-core/src/castkms_event.rs:168-206 | After an error every later nonempty push repeats it. |
| `Framing.ChunkInvariance` | crates/pronk-core/src/castkms_event.rs:168-219 | For every chunking: the stream's own error, or the events and carry of a whole-stream parse, and a carry within 4096 bytes. |
| `Framing.ParseExactly` | crates/pronk-core/src/castkms_event.rs:168-206 | The parse of any stream takes off exactly the records it begins with, and stops where the stream is incomplete or broken. |
| `Framing.StreamRoundTrip` | crates/pronk-core/src/castkms_event.rs:168-219 | Encoded records come back in order from any chunking. |
| `DrmEvents.ValueOfBytes` | crates/pronk-core/src/castkms_event.rs:601-639 | An integer is read back from its bytes. |
| `DrmEvents.ValidateDeclaredLength` | crates/pronk-core/src/castkms_event.rs:454-473 | The length a header declares is accepted exactly when it lies between the header size and 4096. |
| `DrmEvents.CodecBounded` | crates/pronk-core/src/castkms_event.rs:454-473 | The CastKMS codec keeps records within the carry's bound. |
| `DrmEvents.DecodedIsEncodable` | crates/pronk-core/src/castkms_event.rs:475-575 | Every event the decoder reports can be encoded. |
| `DrmEvents.EventRoundTrip` | crates/pronk-core/src/castkms_event.rs:475-575 | Every encodable event is the decoding of its encoding, extension bytes included. |
| `DrmEvents.DecodedEncodes` | crates/pronk-core/src/castkms_event.rs:475-575 | What is decoded from a complete record encodes to that very record. |
| `DrmEvents.DecodesExactly` | crates/pronk-core/src/castkms_event.rs:475-575 | A complete record is accepted if and only if it encodes an event, and that event is reported. |
| `DrmEvents.EventsRoundTrip` | crates/pronk-core/src/castkms_event.rs:475-575 | Any list of events comes back from any chunking of its encoding, with an empty carry. |
| `DrmEvents.AppendDecodedEvents` | crates/pronk-core/src/castkms_event.rs:391-452 | What is appended stays within the bound and the expected scope, if there is one; the first event outside the scope stops it. |
| `CecTransport.CecTracker.Install` | crates/pronk-core/src/castkms_cec.rs:134-142 | A second binding is refused. |
| `CecTransport.CecTracker.SetOnline` | crates/pronk-core/src/castkms_cec.rs:144-162 | A change of state demands a newer generation; going offline is refused while a transmit is pending. |
| `CecTransport.CecTracker.RecordAuthoritySuspended` | crates/pronk-core/src/castkms_cec.rs:164-173 | Suspension takes the transport offline and drops the pending transmit. |
| `CecTransport.CecTracker.RecordTransmit` | crates/pronk-core/src/castkms_cec.rs:175-216 | A transmit is admitted, stale or refused. |
| `CecTransport.CecTracker.Remove` | crates/pronk-core/src/castkms_cec.rs:236-248 | Unbinding is refused while a transmit is pending. |
| `CecClient.CastKmsClient.BindTransport` | crates/pronk-core/src/castkms_cec.rs:315-370 | Binding installs an offline transport, once. |
| `CecClient.CastKmsClient.SetTransportOnline` | crates/pronk-core/src/castkms_cec.rs:372-393 | The tracker follows the kernel's state, and only after the call succeeded. |
| `CecClient.CastKmsClient.RecordAuthoritySuspended` | crates/pronk-core/src/castkms_cec.rs:298-300 | A suspension the kernel has carried out is recorded for a bound transport only. |
| `CecClient.CastKmsClient.RecordTransmit` | crates/pronk-core/src/castkms_cec.rs:395-405 | Only transmits of the client's own connector reach the tracker. |
| `CecClient.CastKmsClient.CompleteTransmit` | crates/pronk-core/src/castkms_cec.rs:407-432 | Only the pending transmit is completed, and it stays pending when the call fails. |
| `CecClient.CastKmsClient.UnbindTransport` | crates/pronk-core/src/castkms_cec.rs:459-483 | Only an offline transport without a pending transmit is unbound. |
| `CecRuns.AdmittedInOrder` | crates/pronk-core/src/castkms_cec.rs:194-198 | What the tracker admits is in order with everything its binding has seen. |
| `CecRuns.AdmittedExactly` | crates/pronk-core/src/castkms_cec.rs:175-216 | In every run a ready transport admits an event of its own if and only if it is in order with all its binding has seen. |
| `CecRuns.StepKeeps` | crates/pronk-core/src/castkms_cec.rs:298-483 | Every client call keeps the tracker in agreement with the history. |
| `CecRuns.TransportIsGenerationSafe` | crates/pronk-core/src/castkms_cec.rs:117-249 | In every run: pending means bound and online; a completion answers the acceptance just before it; within a binding generations never decrease, and rise after every switch or suspension and above the bound one. |
| `CecRuns.CompletedOnceBeforeSuspension` | crates/pronk-core/src/castkms_cec.rs:164-234 | In every run a completion follows its acceptance at once, with neither a suspension nor another completion between, and nothing completes the acceptance again. |
| `CecRuns.StaleAdmittedExactly` | crates/pronk-core/src/castkms_cec.rs:144-216 | An event of an online interval that has ended is admitted if and only if its binding has accepted nothing newer, and nothing as new before its last switch or suspension. |
| `CecRuns.UnreadEventAdmitted` | crates/pronk-core/src/castkms_cec.rs:194-198 | A run in which an event of the first of two online intervals is admitted in the second. |
| `CecHistory.CallsExactly` | crates/pronk-core/src/castkms_cec.rs:298-483 | In every run every call has exactly the effect and the outcome that the binding in force, the switches and the accepted transmits before it call for. |
| `Negotiation.ValidateUnique` | crates/pronk-backend-protocol/src/session.rs:661-680 | True exactly when no two identifiers are equal. |
| `Negotiation.ValidateRates` | crates/pronk-backend-protocol/src/session.rs:108-131 | True exactly for one to sixteen distinct rates in range. |
| `Negotiation.NarrowedVideo` | crates/pronk-chromiacast/src/device.rs:1286-1291 | The first offered H.264 profile, narrowed, or none when there is none. |
| `Negotiation.NarrowedAudio` | crates/pronk-chromiacast/src/device.rs:1295-1304 | The fixed stereo profile exactly when some offered profile can carry it. |
| `Negotiation.SupportedModesInOrder` | crates/pronk-chromiacast/src/device.rs:1278-1282 | The answered modes are exactly the supported ones of the offer, in the offer's order. |
| `Negotiation.FindUniqueVideo` | crates/pronk-backend-host/src/session.rs:382-391 | Looking an identifier up finds the profile that carries it. |
| `Negotiation.NegotiationSound` | crates/pronk-backend-host/src/session.rs:364-425 | The host accepts the answer if and only if audio was not requested or the offer has a capable profile named `opus-stereo`. |
| `Negotiation.AcceptedExactly` | crates/pronk-backend-host/src/session.rs:364-425 | The host accepts an answer if and only if each of its features, modes and profiles is covered by the offer. |
| `Negotiation.NegotiationComplete` | crates/pronk-chromiacast/src/device.rs:1272-1321 | A valid offer is answered if and only if a mode, an H.264 profile and, when asked for, stereo Opus are on offer. |
| `Negotiation.AnswerExactly` | crates/pronk-chromiacast/src/device.rs:1272-1336 | An answer holds exactly the supported modes, the first H.264 profile limited to 3840x2160 at 60 Hz, the stereo Opus profile where audio was asked for, and the features asked for. |
| `Negotiation.AnswerValid` | crates/pronk-backend-protocol/src/session.rs:223-257 | The answer to a valid offer passes the protocol's own validation. |
| `Negotiation.RenamedProfileRefused` | crates/pronk-chromiacast/src/device.rs:1323-1336 | An offer that is answered and then refused. |
| `Supervisor.DelayDoubles` | crates/pronk-backend-host/src/supervisor.rs:61-69 | The delay is the initial one doubled each time, with a fixed factor from the 33rd attempt on, capped by the maximum. |
| `Supervisor.DelayNeverShrinks` | crates/pronk-backend-host/src/supervisor.rs:61-69 | Later attempts never wait less. |
| `Supervisor.DelayForAttempt` | crates/pronk-backend-host/src/supervisor.rs:61-69 | No delay exceeds the maximum. |
| `SupervisorMachine.SupervisorTask.constructor` | crates/pronk-backend-host/src/supervisor.rs:291-310 | The supervisor dials the initial generation. |
| `SupervisorMachine.SupervisorTask.Announce` | crates/pronk-backend-host/src/supervisor.rs:683-691 | An event that finds the queue full ends the supervisor. |
| `SupervisorMachine.SupervisorTask.WaitForRetry` | crates/pronk-backend-host/src/supervisor.rs:530-586 | A retry is scheduled for the next generation, or the supervisor gives up at the limit. |
| `SupervisorMachine.SupervisorTask.ConnectionLost` | crates/pronk-backend-host/src/supervisor.rs:502-522 | A stable connection resets the attempts before the next is counted. |
| `SupervisorMachine.SupervisorTask.RetryNow` | crates/pronk-backend-host/src/supervisor.rs:546-597 | A manual retry resets the attempts and dials the next generation. |
| `SupervisorMachine.SupervisorTask.Wake` | crates/pronk-backend-host/src/supervisor.rs:291-616 | The supervisor after each input, in each phase. |
| `SupervisorRuns.SupervisorIsOrderly` | crates/pronk-backend-host/src/supervisor.rs:291-616 | In every run dialled generations are consecutive, every connection event follows its cause, and automatic retries since the last manual one or stable connection stay within the limit. |
| `SupervisorRuns.LossesAreAnswered` | crates/pronk-backend-host/src/supervisor.rs:502-573 | In every run a lost connection is followed by an attempt numbered by the losses since the last manual retry or connection that lasted the stable time, with its delay, or by giving up once they exceed the limit. |
| `SupervisorRuns.InputsAreAnnounced` | crates/pronk-backend-host/src/supervisor.rs:291-616 | In every state of a run with room in the queue each input is announced exactly as its phase calls for. |
| `SupervisorRuns.StoppedNamesLast` | crates/pronk-backend-host/src/supervisor.rs:546-616 | In every run a supervisor that is shut down names the last generation that reached its backend. |
| `SessionPath.NumberOfDigits` | crates/pronk-backend-protocol/src/session.rs:536-550 | A number is read back from its hexadecimal digits. |
| `SessionPath.StripWithDashes` | crates/pronk-backend-protocol/src/session.rs:544-547 | Removing the dashes undoes inserting them. |
| `SessionPath.PrintedReadsBack` | crates/pronk-backend-protocol/src/session.rs:536-550 | A printed path is accepted and reads back as the session it was printed from. |
| `SessionPath.AcceptedIsPrinted` | crates/pronk-backend-protocol/src/session.rs:552-570 | Every accepted path is printed from the session read from it. |
| `SessionPath.PathBijection` | crates/pronk-backend-protocol/src/session.rs:536-590 | A path is accepted if and only if some session prints it, and then exactly one does. |

## Left out

- System calls, DMA-BUF, D-Bus, systemd and socket code: foreign calls, modelled as answers.
- The grant helper, the mock backend, EDID and display-name code: they would only add easy members.
- The GStreamer graph, its timelines and the H.264 frame check: only the VP8 frame check is modelled.
- Byte order: records are little-endian, where the program reads them in the machine's own order.
- Channel capacities and scheduling: every order of steps is admitted; a full supervisor queue is modelled, other channels do not fill.
- The order in which a scan visits devices is any order of the two sets, where the program uses that of its maps.
- Draining of stale frames when a generation is configured: it only decides which units reach the actor.
- Queue delays, session statistics and the events feedback returns to the device: they feed no decision.
- The actors' published state snapshot: waits read the actor itself; the two differ only in the dropped counter.
- `minimum_playout_delay` and the parsing of PipeWire targets and caps: their outcome is a parameter of ConfigureMedia.
- Session creation and the contents of supervisor events beyond their generation.
- Commands the supervisor answers without changing state.
