# Dual netcode in Dafny

Dual is a server-authoritative game engine with its own netcode. This project
models that netcode, and the small state machines around it, and proves what
they keep over every run.

Each component comes in two layers. A datatype and functions on it say what an
operation does to the state; a class with the source's own fields does it in
place, and its methods are proved to agree with those functions. The theorems
are about runs of those functions.

* `Serial`, `Tracking`, `Protocol`: wrapping sequence numbers, the ack bitfield
  on both ends, the data on the wire.
* `Connection`: one endpoint with its unreliable, reliable and ordered channel.
* `Network`: two endpoints and a network that loses, repeats and reorders.
  `Retention`, `OrderedDelivery`, `UnreliableDelivery`, `NoLoss`, `AckDiscipline`
  and `Dedup` prove what its runs keep, `Losses` how messages are lost; `TrackerWraps` follows the
  bitfield across wraps.
* `Entities`: entities and their quantised form on the wire.
* `World`, `SnapshotBuffer`, `SnapshotServer`, `Interpolation`: the world, its
  deltas, the server's ring and the client's buffer. `DeltaSync` runs them
  against each other over the same kind of network.
* `Prediction`, `PredictionExact`: client prediction against rewind and replay.
* `Session`: connections and the entities they own.
* `Rollback`, `PlayerController`, `EventQueue`, `LobbyManager`: the fixed-step
  history, the jump state machine, the bounded event queue, the lobby index.

`dafny verify dfyconfig.toml` checks everything.

## What the code does that its design does not say

* `record_received` sets bit 0 on a forward jump of `diff`, not bit `diff - 1`
  (`crates/game/src/net/tracking.rs:145`), and a tracker that has received
  nothing reports ack 0. `plan/ARCHITECTURE.md:114` promises the previous 32
  packets. `AckSoundness` and `AckSoundnessForAll` give the exact condition under
  which the report is true, `NothingLostExactly` the exact condition under which no message is lost,
  and two concrete runs lose a reliable message (`GapLosesMessage`,
  `EarlyHeaderLosesMessage`). The client leads with an unqueued packet, so its
  messages are safe up to jumps; the server leads with a reliable challenge, so
  its are only if the client waits for it. The intended recurrence is proved
  beside the code, selected by the field `repaired`; the classes follow the code.
* A resend takes a wire sequence that is not tracked, so its ack releases
  nothing (`LeavesOnlyByAck`).
* `states_equal` ignores the animation frame; client and server agree up to it.
* An ordered message 2^15 or more ahead is dropped and yet acked
  (`FarAheadLosesMessage`).
* `reset` keeps `knowledge_tick` but clears what it stands for (`DeliverKeepsExactly`,
  `ResetForgetsEntity`).
* A timeout, or a second valid challenge response, leaves a player without an
  owner (`OrphansExactly`, `TimeOutOrphansPlayer`,
  `SecondResponseOrphansPlayer`).
* `rollback_to` the current or a later tick may bring back an abandoned state
  (`RewindKeepsExactly`, `CurrentTickMayBeStale`, `LaterTickIsAbandoned`), and never
  restores the world's entities, which is harmless exactly for physics that does not
  read them (`HarmlessExactly`).
* A ground jump refills the coyote time, so a landing allows a second jump unless
  the coyote time is at most one time step (`OneJumpPerLandingExactly`).
* `create_lobby` does not ask whether the host is in a lobby already
  (`CreateKeepsExactly`, `SecondLobbyBreaksIndex`).
* `README.md:44-49` describes reconciliation as restoring the physics state and
  replaying inputs; the code shifts the stored positions instead. That is the
  same exactly for movement that does not depend on position (`RefinesExactly`).

Conventions: `u8`, `u16` and `u32` are bounded integers whose wrap-around is
written out; a bitfield is a sequence of 32 bits, a salt one of 64; coordinates and times are
reals; hash maps are listed in any order. Fields called history in the sources
(`wires`, `recorded`, `sendings`, `handedOrdered`, `worlds`, `timeline` and the like) record
what happened for the theorems and decide nothing.

## Model

| member | source | states |
|---|---|---|
| `Serial.GreaterByDistance` | crates/game/src/net/protocol.rs:57-60 | The wire comparison depends on the forward distance alone except at exactly half the range, where the smaller number wins; of two distinct numbers exactly one is ahead (section 3.2 of RFC 1982 leaves that tie open) |
| `Serial.GreaterByDistance16` | crates/game/src/net/connection.rs:286-289 | The same for the 16-bit channel sequences |
| `Serial.SerialAgrees` | crates/game/src/net/protocol.rs:57-60 | On unbounded counters less than half the range apart the comparison is their order, across any number of wraps |
| `Serial.SerialAgrees16` | crates/game/src/net/connection.rs:286-289 | The same for the 16-bit channel sequences |
| `Serial.SerialTransitive` | crates/game/src/net/protocol.rs:57-60 | Transitive if and only if the two distances together stay within half the range, or reach one past it with the tie going to the first number |
| `Serial.NotTransitive` | crates/game/src/net/protocol.rs:57-60 | Three numbers for which transitivity fails without that bound |
| `Serial.LteAgreesExactly` | crates/game/src/event/queue.rs:132-135 | The event queue's comparison agrees with the wire comparison except at a forward distance of exactly 2^31-1, and at the half-range tie when it goes to the other side |
| `Tracking.RecordSound` | crates/game/src/net/tracking.rs:132-158 | One arrival that passes the jump guard never makes the tracker claim a sequence that was not recorded, wraps and half-range ties included |
| `Tracking.RecordRepresents` | crates/game/src/net/tracking.rs:132-158 | One arrival that passes the guard keeps the bitfield equal to the recorded sequences among the 32 before the newest |
| `Tracking.JumpLies` | crates/game/src/net/tracking.rs:143-149 | An arrival that fails the guard (a forward jump of 2 to 32) makes the tracker claim the sequence before it, which never arrived |
| `Tracking.FirstArrival` | crates/game/src/net/tracking.rs:122-158 | The first arrival is reported truthfully if and only if it is 0 or clears the bitfield |
| `Tracking.GuardedIsExact` | crates/game/src/net/tracking.rs:132-162 | After any arrivals that pass the guard and are never half the range from the newest, the ack data is exactly the recorded sequences |
| `Tracking.AckSoundness` | crates/game/src/net/tracking.rs:132-162 | Over whole arrival runs within half the range of the newest: the ack data never claims an unrecorded sequence if and only if every arrival passes the guard |
| `Tracking.AckSoundnessForAll` | crates/game/src/net/tracking.rs:132-162 | The same for all arrivals, with no window: no false claim is ever made if and only if the first arrival is 0 or clears the bitfield, and at every jump of 2 to 32 the predecessor, and at exactly 32 whatever the bits will stand for, had arrived |
| `Tracking.RecordSoundExactly` | crates/game/src/net/tracking.rs:132-158 | That condition is exact for one arrival |
| `Tracking.RepairedIsExact` | crates/game/src/net/tracking.rs:132-162 | With bit diff-1 set and a start at u32::MAX the ack data is exact as long as no arrival is half the range from the newest; u32::MAX itself is the one extra claim |
| `Tracking.RepairedIsSound` | crates/game/src/net/tracking.rs:132-162 | Under that recurrence the ack data claims nothing that was not recorded, but for u32::MAX, for all arrivals whatsoever |
| `Tracking.LowArrivalsAreWindowed` | crates/game/src/net/tracking.rs:142-149 | Arrivals below half the range satisfy the window hypothesis of the results above |
| `Tracking.GapFreeIsExact` | crates/game/src/net/tracking.rs:132-162 | For arrivals below 2^31 that start at 0 and never skip a sequence, with any repeats and late ones, the ack data as written is exact; `GapFreeAcrossWraps` has no such bound |
| `Tracking.BitsAreNearlySound` | crates/game/src/net/tracking.rs:132-162 | For any arrivals, a set bit for s means s or s+1 was recorded, unless a jump of exactly 32 found a bit set that it makes stand for another sequence |
| `Tracking.JumpOf32Exactly` | crates/game/src/net/tracking.rs:144-145 | A jump of exactly 32 keeps that if and only if none of the bits it would move is set |
| `Tracking.NearlySoundExactly` | crates/game/src/net/tracking.rs:132-162 | Over whole runs within the window it holds at every point if and only if every jump of 32 passes that check |
| `Tracking.JumpOf32Misreads` | crates/game/src/net/tracking.rs:144-145 | Four arrivals with a jump of 32 after which a bit is set for a sequence neither of whose two candidates arrived |
| `Tracking.ReportedExactly` | crates/game/src/net/tracking.rs:43-84 | process_ack returns a sequence if and only if it is tracked, not yet acked, and claimed by the header |
| `Tracking.ReportedOnce` | crates/game/src/net/tracking.rs:43-84 | One call returns no sequence twice |
| `Tracking.AckClears` | crates/game/src/net/tracking.rs:66-81 | After process_ack a sequence is still waiting if and only if it was waiting and was not returned |
| `Tracking.AckKeepsSequences` | crates/game/src/net/tracking.rs:79-81 | An ack tracks nothing new: what remains is a suffix of what was tracked, in order |
| `Tracking.AckRoundTrip` | crates/game/src/net/tracking.rs:43-84 | Encoder and decoder together, as written and guarded: process_ack(ack_data()) returns exactly the waiting sequences the peer recorded among its newest and the 32 before |
| `Tracking.AckRoundTripRepaired` | crates/game/src/net/tracking.rs:43-84 | The same under the intended recurrence, without the guard but still within the window; u32::MAX counts as recorded |
| `Tracking.ReceiveTracker.RecordReceived` | crates/game/src/net/tracking.rs:132-158 | The in-place tracker follows the recurrence the lemmas above are about, and reports new exactly when the sequence is not among the last 128 |
| `Tracking.AckTracker.TrackPacket` | crates/game/src/net/tracking.rs:31-41 | The new sequence goes to the end of the queue, the rest stays in order, and the oldest goes when there are 1024 |
| `Tracking.AckTracker.ProcessAck` | crates/game/src/net/tracking.rs:43-84 | The loops return and clear what ReportedExactly and AckClears say |
| `TrackerWraps.ArriveKeepsExact` | crates/game/src/net/tracking.rs:132-158 | One arrival less than half the range from the newest keeps the tracker exact about the unbounded counts behind the wire sequences |
| `TrackerWraps.ExactAcrossWraps` | crates/game/src/net/tracking.rs:132-162 | Across any number of 32-bit wraps the ack is the newest count and the bitfield says exactly which of the 32 before it were seen, as written under the jump guard and without it under the intended recurrence |
| `TrackerWraps.GapFreeAcrossWraps` | crates/game/src/net/tracking.rs:132-162 | For gap-free arrivals, none half the range late, the tracker as written is exact across any number of wraps |
| `Connection.ClientConnection.SendPacket` | crates/game/src/net/connection.rs:110-146 | The packet carries the payload, the next wire sequence, the ack data and the channel with its next sequence; a queued message is kept pending with the time it was sent; and all that is the endpoint step of every run below |
| `Connection.ClientConnection.UpdateAcks` | crates/game/src/net/connection.rs:153-169 | Releasing in a loop equals releasing the reported sequences one after another |
| `Connection.ClientConnection.ProcessPacket` | crates/game/src/net/connection.rs:148-214 | A packet whose wire sequence is among the last 128 hands over nothing; any other hands over its payload if unreliable, if reliable and not in the history, or if ordered and next, followed by the run buffered behind it; and acks, duplicate check and delivery together are the endpoint step of every run below |
| `Connection.ClientConnection.DeliverPayload` | crates/game/src/net/connection.rs:176-213 | What each channel hands over, spelt out per channel, and the new dedup history or reorder buffer |
| `Connection.ClientConnection.DeliverRun` | crates/game/src/net/connection.rs:193-204 | The drain loop hands over the maximal buffered run and leaves the rest |
| `Connection.ClientConnection.CollectResends` | crates/game/src/net/connection.rs:216-284 | The pending messages whose last send is more than the timeout ago are resent, each once, reliable before ordered, each with its own payload and channel sequence under the next wire sequence; their last send becomes now, and nothing else pending changes |
| `Connection.ListOverdue` | crates/game/src/net/connection.rs:226-233 | Lists each overdue channel sequence once and nothing else |
| `Connection.ResendReliablesEach` | crates/game/src/net/connection.rs:235-253 | The k-th resend takes the k-th wire sequence from here and carries the k-th message as it was sent, with the ack data; exactly those messages get a new last send |
| `Connection.ResendOrderedsEach` | crates/game/src/net/connection.rs:263-281 | The same on the ordered channel, with the reliable messages untouched |
| `Retention.ReleaseAllPending` | crates/game/src/net/connection.rs:157-169 | Releasing a batch of wire sequences takes a message off its pending map if and only if one of them carried its slot |
| `Retention.AckReleases` | crates/game/src/net/connection.rs:153-169 | An ack takes a message off the pending map exactly when it reports that message's original wire sequence |
| `Retention.StepReleases` | crates/game/src/net/connection.rs:110-284 | Of all steps only a receipt can do that |
| `Retention.PendingIsInflight` | crates/game/src/net/connection.rs:118-142 | In every run without wrap each pending message has an inflight entry pointing back to it under the right channel, and each wire sequence is reported at most once |
| `Retention.LeavesOnlyByAck` | crates/game/src/net/connection.rs:148-169 | In every run without wrap a message leaves its pending map if and only if process_ack reports its original wire sequence |
| `OrderedDelivery.HandedInSequence` | crates/game/src/net/connection.rs:190-211 | For any arrivals in any order, the i-th payload handed over came under channel sequence i modulo 2^16, and every buffered key stays strictly ahead of the next expected one |
| `OrderedDelivery.AcceptInOrder` | crates/game/src/net/connection.rs:190-211 | One arrival hands over exactly the next messages of the sender, if any, and leaves only what belongs in the buffer, if and only if its payload fits where the receiver puts it |
| `OrderedDelivery.DrainTakes` | crates/game/src/net/connection.rs:198-203 | The drain loop yields consecutive messages and leaves only later ones |
| `OrderedDelivery.OrderedPrefix` | crates/game/src/net/connection.rs:190-211 | In every run over a network that loses, repeats and reorders, across any number of 16-bit wraps, the payloads handed over are a prefix of those sent as long as each arrival is read for what it is or dropped |
| `OrderedDelivery.PrefixExactly` | crates/game/src/net/connection.rs:190-211 | Over whole runs, the exact condition: the payloads handed over are a prefix of those sent and the buffer holds what belongs there, at every point, if and only if each arrival carries the payload of the message it is taken for |
| `OrderedDelivery.WindowedPrefix` | crates/game/src/net/connection.rs:190-211 | In particular the prefix holds when every arrival is less than half the range from the next expected message |
| `OrderedDelivery.PlacedExactly` | crates/game/src/net/connection.rs:286-289 | Within one turn of the counter an arrival is placed right if and only if it is less than half the range away, or exactly half with the tie going its way |
| `OrderedDelivery.ReadRightExactly` | crates/game/src/net/connection.rs:193-210 | Within one turn an arrival is misread if and only if it is more than half the range behind, or exactly half with the tie going against it |
| `OrderedDelivery.DroppedExactly` | crates/game/src/net/connection.rs:205-210 | Within one turn a message still to come is dropped if and only if it is more than half the range ahead, or exactly half with the tie going against it |
| `OrderedDelivery.RunCounts` | crates/game/src/net/connection.rs:193-204 | In every run the next expected sequence is the number of payloads handed over, modulo 2^16 |
| `OrderedDelivery.HalfRangeBehindIsMisfiled` | crates/game/src/net/connection.rs:205-207 | An input: a copy 2^15 behind is buffered as if it were ahead |
| `OrderedDelivery.HalfRangeAheadIsDropped` | crates/game/src/net/connection.rs:205-210 | An input: a message 2^15 ahead is dropped |
| `UnreliableDelivery.FlightsWereSent` | crates/game/src/net/connection.rs:110-146 | In every run, wraps included, each packet in flight is one that was sent: same payload, same wire sequence, and the channel asked for |
| `UnreliableDelivery.ReceiptHandsOver` | crates/game/src/net/connection.rs:171-177 | A receipt adds its payload to what was handed over unreliably if and only if it is unreliable and its wire sequence is none of the last 128 taken as new |
| `UnreliableDelivery.OnlyWhatWasSent` | crates/game/src/net/connection.rs:148-177 | In every run whatever is handed over unreliably came with a packet the peer sent unreliably, under that packet's wire sequence |
| `UnreliableDelivery.HandedOverExactly` | crates/game/src/net/connection.rs:148-177 | At every step of every run an unreliable payload is handed over exactly when its packet arrives as new, and no other step hands one over |
| `UnreliableDelivery.NotTwiceSoon` | crates/game/src/net/connection.rs:171-177 | No wire sequence is handed over twice with fewer than 128 others taken as new in between |
| `NoLoss.NothingIsLost` | crates/game/src/net/connection.rs:110-214 | From sound acks to no loss, in every run before the wrap: each reliable message is pending or was handed over; each ordered one is pending, handed over at its index, or in the reorder buffer, provided none arrives half the range ahead |
| `NoLoss.NothingLostExactly` | crates/game/src/net/connection.rs:110-214 | Over whole runs before the wrap, on either channel and with no hypothesis on acks or windows: no message is ever lost if and only if no receipt has an ack that releases a message which has not arrived |
| `NoLoss.StepLosesExactly` | crates/game/src/net/connection.rs:110-284 | The same for one step, whichever it is |
| `NoLoss.ReceiptLosesExactly` | crates/game/src/net/connection.rs:153-169 | A receipt loses a given safe message if and only if its ack releases it before it arrived |
| `NoLoss.OrderedArrivesExactly` | crates/game/src/net/connection.rs:190-211 | Before the wrap an ordered arrival is kept if and only if it is less than half the range ahead of the next expected one, or already buffered |
| `NoLoss.RunKeepsGenuine` | crates/game/src/net/connection.rs:176-213 | In every run before the wrap whatever is handed over or buffered under a channel sequence is the message sent under it |
| `NoLoss.PrefixBeforeWrap` | crates/game/src/net/connection.rs:190-211 | Before the wrap the ordered channel has handed over a prefix of what was sent, whatever arrives and in whatever order |
| `AckDiscipline.NothingIsLostAsWritten` | crates/game/src/net/connection.rs:110-214 | No loss for the tracker as written: a side loses nothing if it leads with an unqueued packet or its peer waits to hear from it, and no packet reaching the peer jumps ahead by 2 to 32; each guard reads one endpoint's own state |
| `AckDiscipline.NothingIsLostRepaired` | crates/game/src/net/connection.rs:110-214 | No loss for the intended recurrence: on the reliable channel in every run before the wrap, on the ordered one provided no message arrives half the range ahead |
| `AckDiscipline.AcksAreSound` | crates/game/src/net/tracking.rs:132-162 | Ack soundness over whole two-party runs, for each of the disciplines: no receipt claims what did not arrive |
| `AckDiscipline.RunKeepsTruth` | crates/game/src/net/tracking.rs:132-162 | Every header in flight and every tracker state claims only what was recorded or carries nothing queued |
| `AckDiscipline.FewStayClose` | crates/game/src/net/connection.rs:190-211 | With at most 2^15 ordered messages none can arrive half the range ahead |
| `AckDiscipline.ProtectedRunDelivers` | crates/game/src/net/connection.rs:110-214 | Disciplined runs exist: one protects both sides, hands over a reliable message and takes it off the pending map by an ack |
| `AckDiscipline.WaitingRunDelivers` | crates/game/src/net/connection.rs:110-214 | The same where the first packet is itself reliable and the peer waits for it |
| `Losses.LossIsFalseClaim` | crates/game/src/net/connection.rs:153-169 | On either channel a receipt loses a message that has not arrived if and only if its header claims the message's original wire sequence while that is still tracked |
| `Losses.EarlyHeaderLosesMessage` | crates/game/src/net/tracking.rs:160-162 | A run of three steps in which the ack 0 of an endpoint that has received nothing loses a reliable message |
| `Losses.GapLosesMessage` | crates/game/src/net/tracking.rs:144-145 | A run in which one dropped packet and the next ack lose a reliable message |
| `Losses.FarAheadLosesMessage` | crates/game/src/net/connection.rs:205-210 | Runs in which an ordered message 2^15 or more ahead is dropped, truthfully acked, and lost |
| `Dedup.HistoryIsLastDelivered` | crates/game/src/net/connection.rs:178-189 | After any run the history is exactly the last min(n, 256) delivered channel sequences |
| `Dedup.RepeatsAreFarApart` | crates/game/src/net/connection.rs:178-189 | Two deliveries of one channel sequence have at least 256 other reliable deliveries between them |
| `Dedup.RememberedExactly` | crates/game/src/net/connection.rs:178-189 | A channel sequence is in the history if and only if it is one of the last 256 delivered |
| `Dedup.RedeliveredExactly` | crates/game/src/net/connection.rs:178-189 | A repeated message under a new wire sequence is handed over again if and only if at least 256 others were since its last delivery |
| `Dedup.AtMostOnce` | crates/game/src/net/connection.rs:178-189 | With at most 256 distinct messages each is delivered at most once |
| `Dedup.ExactlyOnceOrPending` | crates/game/src/net/connection.rs:110-214 | End to end with at most 256 reliable messages and sound acks: only sent messages are handed over, none twice, and each is handed over or still pending |
| `Entities.EncodingReads` | crates/game/src/snapshot/entity.rs:91-105 | What goes on the wire carries the id, type, position, animation state and flags as they are; velocity and orientation within one step when in range, and the animation fraction within one frame |
| `Entities.DecodedIsClose` | crates/game/src/snapshot/entity.rs:91-123 | The round trip of an entity: decoding its state gives it back, not dirty, up to one step of velocity, orientation and animation time |
| `Entities.WireRoundTrip` | crates/game/src/snapshot/entity.rs:91-123 | The round trip of a state: decoding and encoding give it back if and only if its type is known, its frame is below 255 and none of its 16-bit components is -32768 |
| `Entities.EncodingIsStable` | crates/game/src/snapshot/entity.rs:91-123 | Every entity fits the wire, whatever its velocity and orientation, and encoding what was decoded changes nothing |
| `Entities.QuantiseIsNear` | crates/game/src/net/protocol.rs:221-253 | A component within its limit comes back within one step of the scale |
| `Entities.QuantiseFits` | crates/game/src/net/protocol.rs:221-244 | A component beyond its limit is sent as the limit, and none is sent as more |
| `World.DeltaRoundTrip` | crates/game/src/snapshot/world.rs:154-190 | Applied to anything equal to the baseline up to the animation frame, a delta yields the current world up to the animation frame |
| `World.DeltaIsExactWhen` | crates/game/src/snapshot/world.rs:154-214 | The delta gives the current world itself, frames included, if and only if everything it does not list was known with its current frame |
| `World.DeltaIsMinimal` | crates/game/src/snapshot/world.rs:162-179 | Any part of a delta that still does the job contains every entity and every removed id of it |
| `World.GoneExactly` | crates/game/src/snapshot/world.rs:174-179 | The removed ids are exactly the baseline's ids that are no longer live |
| `World.ChainComposes` | crates/game/src/snapshot/world.rs:154-190 | Applying the deltas between successive worlds one after another ends at the last world |
| `World.AdvanceKeepsView` | crates/game/src/snapshot/world.rs:43-49 | Advancing the tick changes nothing a client sees |
| `World.ViewReads` | crates/game/src/snapshot/world.rs:118-133 | Exactly the live entities are seen, and what is seen of each is what that entity is, field by field |
| `World.SpawnIsFresh` | crates/game/src/snapshot/world.rs:55-67 | A spawned id was not live and exactly that id is added |
| `World.GameWorld.AdvanceTick` | crates/game/src/snapshot/world.rs:43-49 | Next tick, no dirty flags, empty removal list, nothing else changed |
| `World.GameWorld.SpawnWithId` | crates/game/src/snapshot/world.rs:69-76 | Later ids stay above every live one, also after an id chosen by the caller |
| `World.GameWorld.Despawn` | crates/game/src/snapshot/world.rs:78-84 | Returns the entity exactly when it was live; only then is the id listed as removed |
| `World.GameWorld.TakeSnapshot` | crates/game/src/snapshot/world.rs:118-133 | Lists every live entity once, in any order, each with the fields of that entity, and is not a delta |
| `World.GameWorld.DeltaFromBaseline` | crates/game/src/snapshot/world.rs:154-190 | Lists exactly the new or changed entities, once each and with their fields as they are now, and exactly the baseline ids no longer live |
| `SnapshotBuffer.HoldsLastCapacity` | crates/game/src/snapshot/buffer.rs:17-25 | With consecutive ticks pushed, get succeeds exactly for the last `capacity` of them and returns what was pushed |
| `SnapshotBuffer.Buffer.Push` | crates/game/src/snapshot/buffer.rs:17-20 | The slot of the tick is replaced and no other slot changes |
| `SnapshotBuffer.Buffer.Get` | crates/game/src/snapshot/buffer.rs:22-25 | Finds a snapshot only under its own tick |
| `SnapshotBuffer.Buffer.Latest` | crates/game/src/snapshot/buffer.rs:40-45 | Returns a stored snapshot with the greatest tick, or nothing exactly when the ring is empty |
| `SnapshotServer.DeltaExactlyWhen` | crates/server/src/server.rs:278-330 | A client gets a delta if and only if it acked a stored tick younger than half the ring, and then against exactly that tick |
| `SnapshotServer.Server.StoreTick` | crates/server/src/server.rs:241-245 | A server tick stores the full snapshot of the advanced world |
| `SnapshotServer.Server.GenerateClientSnapshot` | crates/server/src/server.rs:314-330 | The snapshot is a full one or a delta against the chosen baseline, and lists exactly what that calls for |
| `Interpolation.StoreKeepsSorted` | crates/client/src/net/interpolation.rs:136-145 | Insertion and eviction keep the buffer sorted by server time |
| `Interpolation.RetainKeepsSorted` | crates/client/src/net/interpolation.rs:327-330 | So does the time-based cleanup |
| `Interpolation.SurvivesExactly` | crates/client/src/net/interpolation.rs:136-145 | A snapshot is buffered if and only if it was stored and fewer than `max_buffer_snapshots` entries sort after it (later, or at the same time and stored after), in whatever order they came |
| `Interpolation.KeepsNewest` | crates/client/src/net/interpolation.rs:136-145 | Evicting at every insertion keeps exactly the newest end of everything ever stored, in order of time |
| `Interpolation.FindByTickFinds` | crates/client/src/net/interpolation.rs:153-160 | A tick is found if and only if it is buffered, and what is found has that tick |
| `Interpolation.BaselineSurvives` | crates/client/src/net/interpolation.rs:175-188 | Over every run of pushes a delta against a stored baseline expands until that many entries sort after it |
| `Interpolation.InterpolationEngine.PushSnapshot` | crates/client/src/net/interpolation.rs:108-151 | Expansion, sorted insertion and eviction in place; an unexpandable delta moves only the clock |
| `Interpolation.InterpolationEngine.ExpandSnapshot` | crates/client/src/net/interpolation.rs:162-204 | With its baseline known or buffered, a delta becomes a full snapshot that lists the new knowledge; otherwise nothing changes |
| `Interpolation.InterpolationEngine.GetSnapshotByTick` | crates/client/src/net/interpolation.rs:153-160 | The newest buffered snapshot of that tick |
| `Interpolation.InterpolationEngine.CleanupOldSnapshots` | crates/client/src/net/interpolation.rs:327-330 | Keeps, in order, what is later than the cutoff |
| `Interpolation.InterpolationEngine.FindInterpolationIndices` | crates/client/src/net/interpolation.rs:261-297 | Within the buffer: the first adjacent pair around the render time, with the weight in [0,1] whose weighted time is the render time; before it (0, 0, 0); past it the last pair, with the weight whose weighted time is the render time up to half a span beyond the last snapshot, 1.5 from there on, and 1 when the two have the same time |
| `Interpolation.ClockApproaches` | crates/client/src/net/interpolation.rs:108-134 | Each further snapshot shrinks the distance between the clock offset and its own by the correction rate |
| `Interpolation.InterpolationEngine.ResetEngine` | crates/client/src/net/interpolation.rs:344-354 | Everything is cleared but `knowledge_tick` |
| `DeltaSync.SentIsGenuine` | crates/server/src/server.rs:314-330 | Whatever tick the server believes was acked, what it sends is its world at the current tick, outright or as a delta against a stored tick that is not 0 |
| `DeltaSync.ExpandIsFaithful` | crates/client/src/net/interpolation.rs:162-204 | Expanding a genuine snapshot on truthful knowledge gives the server's world at its tick, by knowledge or by recovery |
| `DeltaSync.StepKeepsExactly` | crates/server/src/server.rs:235-330 | Every step, be it gameplay, a server tick, a delivery, a cleanup or a reset, leaves the client truthful if and only if it is not that delivery |
| `DeltaSync.NeverWrong` | crates/client/src/net/interpolation.rs:108-204 | In every run, resets included, every buffered snapshot and the known entities at `knowledge_tick` equal the server's world at that tick up to the animation frame, as long as the guard holds |
| `DeltaSync.DeliverKeepsExactly` | crates/client/src/net/interpolation.rs:108-204 | A delivery leaves the client truthful if and only if it is not, first after a reset, a delta against the tick known before that lists only part of the world |
| `DeltaSync.NeverWrongExactly` | crates/client/src/net/interpolation.rs:108-204 | Over whole runs: every buffered snapshot and the known entities are right at every point if and only if no delivery fails that guard |
| `DeltaSync.NeverWrongFromFresh` | crates/client/src/net/interpolation.rs:108-204 | From a fresh engine without resets the client is never wrong, with nothing assumed about the network or about acks |
| `DeltaSync.AfterReset` | crates/client/src/net/interpolation.rs:344-354 | After a reset a delta is refused unless it is against the kept `knowledge_tick`, and then it is right if and only if the delta happens to list every entity |
| `DeltaSync.ResetForgetsEntity` | crates/client/src/net/interpolation.rs:344-354 | An input: a reset and one delta after which the client holds half of the server's world |
| `Prediction.RefinesReplay` | crates/client/src/net/prediction.rs:146-211 | At every point of every run, for movement that commutes with translation, the position is the last accepted server position with all later commands replayed, plus a drift that is zero or below the threshold |
| `Prediction.ReconcileReplaysUnacked` | crates/client/src/net/prediction.rs:146-211 | For such movement a reconcile that finds its command puts the position where replaying exactly the unacked commands from the server position leads, or leaves it, within the threshold of that |
| `PredictionExact.RefinesExactly` | crates/client/src/net/prediction.rs:146-211 | Shifting the history is rewind and replay in all runs if and only if the movement commutes with translation |
| `PredictionExact.ReplaysExactly` | crates/client/src/net/prediction.rs:146-211 | And so for single reconciles: each one replays the unacked commands in all runs if and only if the movement commutes with translation |
| `Prediction.FoundExactly` | crates/client/src/net/prediction.rs:152-173 | Whatever the movement, the acked command is found if and only if it is newer than the last ack and still among the stored ones |
| `Prediction.SmoothCorrectionIsInvisible` | crates/client/src/net/prediction.rs:129-208 | A reconcile leaves the drawn position unchanged, for every alpha, if and only if it does not snap or snaps by just what was left to smooth |
| `Prediction.VisualIsEven` | crates/client/src/net/prediction.rs:129-132 | At alpha 0 the position before the tick is drawn, at 1 the one after it, evenly in between, each with the remaining error added |
| `Prediction.ThresholdsAreLengths` | crates/client/src/net/prediction.rs:175-208 | For an error along one axis the two thresholds are compared with its length, strictly |
| `Prediction.ReplayShifts` | crates/client/src/net/prediction.rs:190-195 | Shifting the start shifts the replayed position: why shifting the history is enough |
| `Prediction.ClientPrediction.ReconcileWith` | crates/client/src/net/prediction.rs:146-211 | The pop and shift loops compute the reconcile step of the runs above |
| `Prediction.ClientPrediction.StoreCommand` | crates/client/src/net/prediction.rs:134-144 | The command is stored with the position after it; the newest 128 are kept |
| `Session.SessionInvariant` | crates/game/src/net/connection.rs:322-405 | In every run of requests, responses, acks, kicks, disconnects and timeouts the two maps are mutually inverse, the limit holds, and a client is connected exactly with an entity that is live and its own |
| `Session.StepKeepsInv` | crates/server/src/server.rs:137-154 | Each handler keeps that invariant, and only a challenge response changes what a client owns |
| `Session.StepKeepsPlayers` | crates/server/src/server.rs:480-499 | What clients own are players |
| `Session.OrphansExactly` | crates/server/src/server.rs:251-258 | A step leaves behind a player nobody owns if and only if it times out a connected client or answers a challenge a second time |
| `Session.TimeOutOrphansPlayer` | crates/server/src/server.rs:251-258 | A run: a client connects and times out, and its player stays without an owner |
| `Session.SecondResponseOrphansPlayer` | crates/server/src/server.rs:480-499 | A run: a second copy of the challenge response leaves the first player without an owner |
| `Session.CreateKeeps` | crates/game/src/net/connection.rs:322-343 | A new connection is refused exactly when the address is unknown and the server full; both maps stay inverse |
| `Session.AnswerExactly` | crates/game/src/net/connection.rs:98-100 | Combining with the server's salt gives the expected answer if and only if the one combined is the salt of the request |
| `Session.RemovedByAddrKeeps` | crates/game/src/net/connection.rs:367-382 | Removing by address and by id are the same removal |
| `Session.ConnectionManager.GetOrCreatePending` | crates/game/src/net/connection.rs:322-343 | Finds or creates the one connection of an address, or refuses when full |
| `Session.ConnectionManager.Remove` | crates/game/src/net/connection.rs:367-374 | The entry leaves both maps |
| `Session.ConnectionManager.RemoveByAddr` | crates/game/src/net/connection.rs:376-382 | The entry leaves both maps |
| `Session.ConnectionManager.CleanupTimedOut` | crates/game/src/net/connection.rs:392-405 | Exactly the connections not heard from for more than the timeout are removed from both maps and returned, each once; the others stay as they are |
| `Session.SessionServer.HandleConnectionRequest` | crates/server/src/server.rs:416-462 | The reply challenges the one connection of the address, new or not, with its salts, or says the server is full, and then exactly when the address is unknown and there is no room |
| `Session.SessionServer.HandleChallengeResponse` | crates/server/src/server.rs:464-519 | A matching response connects the client to a freshly spawned player, whose id is in the reply; others change nothing |
| `Session.SessionServer.HandleSnapshotAck` | crates/server/src/server.rs:551-558 | A known client's acked tick becomes the greater of the old and the acked one, no other client changes |
| `Session.SessionServer.KickClient` | crates/server/src/server.rs:137-154 | The connection leaves both maps and its entity, if it has one, leaves the world; no other client or entity changes |
| `Session.SessionServer.HandleDisconnect` | crates/server/src/server.rs:560-572 | The connection of the address leaves both maps and its entity, if it has one, leaves the world; no other client or entity changes |
| `Session.SessionServer.DropSilent` | crates/server/src/server.rs:251-258 | Returns, each once, exactly the clients not heard from for more than the timeout; exactly the others remain, unchanged, and every entity stays |
| `Rollback.GetAfterPush` | crates/game/src/physics/snapshot.rs:41-54 | A pushed tick is readable, and only ticks sharing its slot are forgotten |
| `Rollback.HistoryIsCurrent` | crates/game/src/simulation/tick.rs:74-89 | In every run of ticks and rollbacks each entry below the current tick is the state of the current timeline, never of an abandoned one |
| `Rollback.RewindKeepsExactly` | crates/game/src/simulation/tick.rs:80-89 | A rollback stays on the current timeline if and only if its tick is below the current one, not resident, or current with the current state |
| `Rollback.RollbackIsDeterministic` | crates/game/src/simulation/tick.rs:80-132 | After rolling back to any resident earlier tick, rerunning the same inputs reaches the same physics, tick and history, for a tick that is a function of physics and input |
| `Rollback.PhysicsAlone` | crates/game/src/simulation/tick.rs:115-132 | With world entities beside the physics, the physics of a run is that of the model above exactly as it would be alone, if the physics of a tick does not read them |
| `Rollback.HarmlessExactly` | crates/game/src/simulation/tick.rs:80-132 | Rerunning with another world reaches the same physics and history, from every state and for all inputs, if and only if the physics of a tick does not read the world |
| `Rollback.WorldIsNotRolledBack` | crates/game/src/simulation/tick.rs:80-89 | If it does read it, a run in which rollback and rerun end in another physics state |
| `Rollback.CurrentTickMayBeStale` | crates/game/src/simulation/tick.rs:80-89 | Two ticks, a rollback and another tick after which the current tick still reads the abandoned state |
| `Rollback.LaterTickIsAbandoned` | crates/game/src/simulation/tick.rs:80-89 | A run in which rolling back to a later tick brings back the state of an abandoned timeline |
| `Rollback.PhysicsHistory.Put` | crates/game/src/physics/snapshot.rs:41-45 | Both arrays change at one slot only |
| `Rollback.PhysicsHistory.LatestBefore` | crates/game/src/physics/snapshot.rs:65-83 | Returns a resident entry with the greatest tick below the argument, or nothing exactly when there is none |
| `Rollback.SimulationState.Rollback` | crates/game/src/simulation/tick.rs:80-89 | State and tick are restored from the history, or nothing changes |
| `Rollback.SimulationState.RunTicks` | crates/game/src/simulation/tick.rs:118-129 | Each owed tick stores before it steps |
| `PlayerController.JumpsNeedRelease` | crates/game/src/player/controller.rs:208-217 | Between two jump starts the jump flag was released |
| `PlayerController.OneJumpPerSpell` | crates/game/src/player/controller.rs:208-223 | Two jump starts have a grounded command between them or at one of them, so an airborne spell has at most one |
| `PlayerController.LateJumpNeedsCoyote` | crates/game/src/player/controller.rs:208-223 | On the n-th airborne command a jump starts only if the coyote time exceeds n-1 time steps |
| `PlayerController.AlwaysBounded` | crates/game/src/player/controller.rs:64-141 | Whatever the collisions, vertical velocity stays in [-max_fall_speed, jump_power], crouch in [0, 1], and the strafe and stun timers in range |
| `PlayerController.ProcessBounded` | crates/game/src/player/controller.rs:472-543 | One command with any collision result keeps those bounds |
| `PlayerController.CrouchIsTimeIndependent` | crates/game/src/player/controller.rs:517-530 | Commands that agree on crouching move the crouch amount as far as one command of their total length: the tick rate does not matter |
| `PlayerController.GravityBlends` | crates/game/src/player/controller.rs:242-252 | Unless a jump is held while rising, gravity is the fall value at low speed, the normal one at high speed, and between the two in between |
| `PlayerController.HeldJumpIsLight` | crates/game/src/player/controller.rs:242-245 | A jump held while rising is under its own gravity |
| `PlayerController.AirborneFalls` | crates/game/src/player/controller.rs:202-240 | A command in the air that starts no jump lowers the vertical velocity by no less than the smallest and no more than the largest configured gravity times dt, unless it reaches -max_fall_speed |
| `PlayerController.FreeFall` | crates/game/src/player/controller.rs:202-240 | Over runs: after n unobstructed commands under one gravity g the velocity is max(v0 - n g dt, -max_fall_speed) |
| `PlayerController.JumpLaunches` | crates/game/src/player/controller.rs:208-213 | A command that starts a jump leaves at jump_power, or at 0 if the movement upwards is cut short |
| `PlayerController.CollisionStopsExactly` | crates/game/src/player/controller.rs:472-496 | A collision sets the vertical velocity to 0 when it cuts the movement short by more than 0.0001 or when the player stands and does not rise, and leaves it alone otherwise |
| `PlayerController.GroundTimeCounts` | crates/game/src/player/controller.rs:532-538 | Over runs: n commands on the ground add n dt to the ground time, up to its limit |
| `PlayerController.StunWearsOff` | crates/game/src/player/controller.rs:540-543 | Over runs: n commands take n dt off a stun, times the ground factor on the ground, down to 0 |
| `PlayerController.SecondJumpInTheAir` | crates/game/src/player/controller.rs:208-223 | A jump from the ground can be followed by a second one in the air |
| `PlayerController.OneJumpPerLandingExactly` | crates/game/src/player/controller.rs:208-223 | A jump from the ground is the only one until the next landing, in all runs, if and only if the coyote time is at most one time step |
| `PlayerController.Player.ComputeVertical` | crates/game/src/player/controller.rs:195-252 | Gravity, jump latch and coyote time in the order of the code: a jump leaves at jump_power and uses up the latch and the coyote time, the ground keeps the fall from starting and refills the coyote time, and the air takes both down, as in the runs above |
| `PlayerController.Player.ProcessCommand` | crates/game/src/player/controller.rs:64-141 | The vertical part of a command: the crouch, ground-time, velocity, collision and stun steps follow one another as in the runs above |
| `EventQueue.QueueInvariant` | crates/game/src/event/queue.rs:41-130 | Over every sequence of operations events stay in push order, and the queue exceeds its bound only while at most one event is not Reliable |
| `EventQueue.ReliableLeaves` | crates/game/src/event/queue.rs:41-130 | A Reliable event leaves if and only if it is cleaned up after an ack, drained for its tick, or the queue is cleared |
| `EventQueue.AckUpToExactly` | crates/game/src/event/queue.rs:69-75 | Within half the range ack_up_to marks exactly the events pushed no later than the acked one, across wraps |
| `EventQueue.ExpiresExactly` | crates/game/src/event/queue.rs:14-24 | Which events expire and when: the Reliable ones never, kills after ten seconds, deaths and items after five, the rest at once |
| `EventQueue.CleanedExactly` | crates/game/src/event/queue.rs:77-84 | An event survives a cleanup if and only if it is neither acked nor expired |
| `EventQueue.DrainedExactly` | crates/game/src/event/queue.rs:96-107 | Draining hands out exactly the events of the tick, leaves exactly the others, and loses or doubles none |
| `EventQueue.EvictEffect` | crates/game/src/event/queue.rs:121-130 | Eviction removes the oldest event that is not Reliable, or nothing when there is none |
| `EventQueue.KeptIsOrdered` | crates/game/src/event/queue.rs:77-107 | Cleaning and draining keep the order |
| `EventQueue.EventBuffer.PushEvent` | crates/game/src/event/queue.rs:41-58 | Evicts at the bound, then appends the event with its tick and time under the next sequence, not acked |
| `EventQueue.EventBuffer.AckAllUpTo` | crates/game/src/event/queue.rs:69-75 | Marks in place; nothing is removed or reordered |
| `EventQueue.EventBuffer.Clean` | crates/game/src/event/queue.rs:77-84 | Keeps, in order, what is neither acked nor expired |
| `EventQueue.EventBuffer.DrainEventsForTick` | crates/game/src/event/queue.rs:96-107 | The index loop returns the tick's events in order and leaves the others in order |
| `LobbyManager.LobbyInvariant` | crates/game/src/lobby/mod.rs:217-268 | If every creator is free, in every run a player is filed under a lobby exactly when it is in it, players are distinct, the host is a member, no lobby is empty, and none is over max(1, max_players) |
| `LobbyManager.StepKeepsExactly` | crates/game/src/lobby/mod.rs:217-268 | An operation keeps that invariant if and only if it is not a creation by a player already in a lobby |
| `LobbyManager.CreateKeepsExactly` | crates/game/src/lobby/mod.rs:217-226 | Creation checks nothing: it keeps the invariant exactly for a free host |
| `LobbyManager.SecondLobbyBreaksIndex` | crates/game/src/lobby/mod.rs:217-226 | A run: a host who creates twice is listed in one lobby and filed under another |
| `LobbyManager.JoinKeeps` | crates/game/src/lobby/mod.rs:228-255 | A successful join files the player under the lobby it is now in; every refusal keeps the invariant |
| `LobbyManager.LeaveKeeps` | crates/game/src/lobby/mod.rs:257-268 | Leaving removes the player from both, hands the lobby on, and drops it when empty |
| `LobbyManager.WithoutPlayerEffect` | crates/game/src/lobby/mod.rs:90-100 | Exactly that player is removed, the others keep their order and nothing else changes; the host stays, or the first of the others takes over |
| `LobbyManager.Manager.JoinLobby` | crates/game/src/lobby/mod.rs:228-255 | The first failing check decides the error: already in a lobby, no such lobby, full, wrong password; otherwise the player is last in that lobby and filed under it, and nothing else changes |
| `LobbyManager.Manager.LeaveLobby` | crates/game/src/lobby/mod.rs:257-268 | Returns the lobby that was left, if it existed |
| `LobbyManager.RemovePlayer` | crates/game/src/lobby/mod.rs:90-100 | The search loop removes the player and passes the host on to the longest-standing one |

## Left out

- NothingIsLostAsWritten: its guards are sufficient; the condition that is exact over whole runs, `NothingLostExactly`, is about what has arrived at the peer.
- NothingLostExactly: speaks of runs before a wire sequence or a channel sequence is used a second time; after that the pending maps may overwrite an older message.
- PrefixExactly: beyond one turn of the 16-bit counter its condition compares payloads; within one turn it is the distance of `ReadRightExactly`.
- AckSoundness: takes as hypothesis that no arrival is half the range from the newest, as do `GuardedIsExact`, `AckRoundTrip`, `RepairedIsExact`, `NearlySoundExactly` and `ExactAcrossWraps`; `AckSoundnessForAll` and `RepairedIsSound` do not.
- NoWrap: the first connection request reaches the server before it has a connection and is not processed by one; runs begin after it.
- RollbackIsDeterministic: the state of a tick is its physics; `HarmlessExactly` says when the entities of the world may be left out.
- Player.ProcessCommand: the vertical part only; horizontal velocity and the position of the body are not part of it.
- RefinesReplay: movement is one function of position and command; what the controller keeps between ticks besides, velocity and grounding, is not part of it. For movement that depends on position, as near obstacles, it does not hold, by `RefinesExactly`.
- FindInterpolationIndices: with weights as reals; the conversion to 32-bit floats is not modelled.
- Liveness: that resent messages are cleared or that a client recovers from a lost baseline is not claimed; the code does not provide it.
- Sockets, serialisation, `tokio`, clocks and random salts: packets are values, times and salts are arbitrary parameters. Header magic and version are not modelled.
- Round-trip-time smoothing: it only feeds the resend timeout, which is a parameter.
- Left shift by 32 in a debug build panics; the model follows the release build, which masks the count.
- Overflow of entity ids, client ids, lobby ids and command sequences: they are unbounded; runs of `DeltaSync` and `Rollback` stop before the tick wraps.
- Rapier and `PhysicsWorld`: the collision result is arbitrary in `PlayerController`, and the physics step is any function in `Rollback`.
- `process` without a physics body: it returns at once and is not a step of the model.
- Horizontal movement, air strafe and the change of shape on crouching: square roots and trigonometry.
- DecodedIsClose: over reals, without the rounding of 32-bit floats and without `normalize` of the decoded orientation.
- Quantised angles and movement of client commands: commands are values.
- Per-entity interpolation, slerp, extrapolation and the render-clock correction in `update`: floating-point formulas; `render_time_ms` is arbitrary at every step.
- `FixedTimestep` accounting: `RunTicks` is told how many ticks are owed.
- `World::delta_snapshot`: not called by the server.
- `SnapshotBuffer::interpolation_pair`: not called by the client's engine.
- `spawn_with_id` in the runs of `Session`: the server does not call it.
- Command queues, server events, the terminal interface and packet-loss simulation: they do not feed back into the state modelled; the network already loses and delays anything.
- Client-side handlers of `client.rs`: they only fix the order in which prediction and delivery steps come.
- Lobby countdown, public listing and the matchmaking queue: easy members.
- Rendering, assets, windows and input devices.
