# Verified models of the UPS firmware

The Dafny files here model the decision-making cores of the LTE-M firmware and of the tools
around it, and prove what each of them is for. `dafny verify dfyconfig.toml` checks everything.

State is modelled twice on purpose. A datatype and functions on it specify each operation;
where the firmware changes fields, arrays or buffers in place, a class does the same and every
method is proved to leave exactly the specified state. The theorems are then about the
specification, mostly over every run: a sequence of calls or events of any length, in which
the environment (broker, node, modem, HTTP peer, flash, clock) is a parameter or an arbitrary
event. Each critical section or handler is one atomic step.

| Files | What they cover |
|---|---|
| `MqttPacketGuard`, `MqttHealth`, `MqttProof` | which PUBACK proves which publication, how long that proof lasts, and both wired to an SDK and a broker |
| `DispatchQueue`, `DispatchRuns`, `DispatchLines`, `MqttReceipts` | the outgoing MQTT queue, its conservation and order over runs, its refinement of two sorted lines, and the receipts that mirror it |
| `HttpDevice`, `HttpServer`, `HttpDelivery` | the two ends of HTTP command delivery, and at-most-once execution over a lossy channel |
| `ArkivSweep`, `ArkivDelivery`, `ArkivBaseline`, `ArkivSequence` | the command sweep, what it delivers, the replay baseline, and the outgoing sequence number |
| `UpdateClaims`, `FwTransfer`, `FwTransferLink` | who may update, validate, roll back or recover; the stop-and-wait transfer |
| `FwHttpPolicy`, `FwHttpHeaders`, `FwResume` | which download responses are accepted (RFC 9110, sections 8.6, 14.4 and 15.3.7), and what resuming leaves in flash |
| `PppEvents`, `Teardown` | the PPP lifecycle and the nested teardown commit |
| `RadioText`, `RadioPolicy` | reading AT responses, and the fail-closed radio policy |
| `WupsFrame`, `Bip39` | the frame codec with its checksum, and the claim code |
| `Wrappers` | values that may be absent |

Four properties one would expect turn out to fail; each comes with its exact condition:

- A sweep burns what is pending beyond the newest eighteen entities as soon as it dispatches one of
  those it sees; it burns a valid command exactly when one lies beyond them too
  (`ArkivDelivery.BurnsExactlyBeyondReach`, `NineteenBurn`). The comment in
  `firmware-ESP32-LTE-M/main/arkiv_rpc.c:633-638` admits the hazard.
- Recovery of the outgoing sequence number takes a failed read of non-volatile storage for an
  empty one. The numbers then start again from one; that is harmless exactly when none was
  issued before (`ArkivSequence.UnreadableSafeExactlyWhenUnused`), while
  `firmware-ESP32-LTE-M/main/arkiv_writer.cpp:151-154` claims that no reuse is possible.
- An accepted Arkiv command can be accepted again once its progress could not be stored, which the
  code notes with a warning, or once a boot could not read a stored field and takes it for zero.
  After any run that is possible exactly when RAM or store still fits the command
  (`ArkivBaseline.AcceptedAgainExactlyWhenOpen`); which acceptance and which boot bring it about is
  exact too (`ReplayExactlyWhenLost`, `ReplayExactlyWhenUnread`).
- The 8-bit number that matches answers to requests of the firmware transfer confuses two of
  them exactly when more than 128 transfers in a row may go without a single answer
  (`FwTransferLink.ToleratesExactly`).

## Model

| member | source | states |
|---|---|---|
| `MqttPacketGuard.EpochIdentity` | firmware-ESP32-LTE-M/main/mqtt_packet_guard.c:74-157 | Over every sequence of calls, with any ids reported: the packet ids accepted between two identity resets are pairwise distinct, attempts stay within 60000, and an armed reset never overlaps a pending operation. |
| `MqttPacketGuard.TravelLocates` | firmware-ESP32-LTE-M/main/mqtt_packet_guard.c:102-111 | The cyclic distances over 1..65535 add up: the last of a chain of ids lies the total distance behind the first on the circle. |
| `MqttPacketGuard.TravelGrows` | firmware-ESP32-LTE-M/main/mqtt_packet_guard.c:102-111 | Every further accepted id moves at least one step on, so the distance travelled bounds the number of ids. |
| `MqttPacketGuard.FreshId` | firmware-ESP32-LTE-M/main/mqtt_packet_guard.c:97-115 | An id is accepted only in 1..65535, one or more steps on from the last one, and no more steps than attempts made since. |
| `MqttPacketGuard.OtherCalls` | firmware-ESP32-LTE-M/main/mqtt_packet_guard.c:74-85 | No call other than a result or a connection changes the last id, and a call that allows one more step has counted one more attempt, failed calls included. |
| `MqttPacketGuard.FirstEarly` | firmware-ESP32-LTE-M/main/mqtt_packet_guard.c:197-200 | The position of the first buffered acknowledgement of an id, or none buffered. |
| `MqttPacketGuard.PacketGuard.LeaveProbe` | firmware-ESP32-LTE-M/main/mqtt_packet_guard.c:32-44 | The probe leaves in the given state, its buffered acknowledgements and its proof gone, nothing else changed. |
| `MqttPacketGuard.PacketGuard.Accept` | firmware-ESP32-LTE-M/main/mqtt_packet_guard.c:46-59 | Proof is recorded at the receipt time and for the present generation inside the half-open window; outside it the probe expires. |
| `MqttPacketGuard.PacketGuard.Begin` | firmware-ESP32-LTE-M/main/mqtt_packet_guard.c:74-85 | The whole state after an operation begins or is refused, as specified. |
| `MqttPacketGuard.PacketGuard.Result` | firmware-ESP32-LTE-M/main/mqtt_packet_guard.c:87-116 | The whole state after a result: ambiguous or out-of-range ids make the guard unsafe, a failed call does not. |
| `MqttPacketGuard.PacketGuard.Arm` | firmware-ESP32-LTE-M/main/mqtt_packet_guard.c:118-128 | A reset is armed only with an empty outbox and no operation pending; arming again keeps the boundary seen. |
| `MqttPacketGuard.PacketGuard.Disconnected` | firmware-ESP32-LTE-M/main/mqtt_packet_guard.c:130-136 | The whole state after a disconnection, the socket boundary recorded when a reset is armed. |
| `MqttPacketGuard.PacketGuard.Connected` | firmware-ESP32-LTE-M/main/mqtt_packet_guard.c:138-157 | A connection renews identities only across an armed boundary; a second CONNECTED in a row makes the guard unsafe. |
| `MqttPacketGuard.PacketGuard.BeginProbe` | firmware-ESP32-LTE-M/main/mqtt_packet_guard.c:159-174 | A probe is armed only under an operation on a safe, connected guard with a new non-zero token. |
| `MqttPacketGuard.PacketGuard.FindEarly` | firmware-ESP32-LTE-M/main/mqtt_packet_guard.c:197-200 | The scan of the fixed buffer finds the first acknowledgement of the id. |
| `MqttPacketGuard.PacketGuard.ResultOfProbe` | firmware-ESP32-LTE-M/main/mqtt_packet_guard.c:176-203 | The probe takes the id of its own operation only, inside its window, and then any acknowledgement that arrived before the SDK returned. |
| `MqttPacketGuard.PacketGuard.Puback` | firmware-ESP32-LTE-M/main/mqtt_packet_guard.c:205-237 | The whole state after a PUBACK: stale, foreign, early, late, duplicate and overflowing ones each as specified. |
| `MqttPacketGuard.PacketGuard.Expire` | firmware-ESP32-LTE-M/main/mqtt_packet_guard.c:239-247 | An active probe expires from the last millisecond of its window on, and never before it began. |
| `MqttHealth.FreshProofIsRecent` | firmware-ESP32-LTE-M/main/mqtt_health.c:46-62 | Over every run: proof reported fresh at t is younger than one interval plus one deadline and rests on an admitted probe acknowledged since the last connection, disconnection, OTA change or event loss. |
| `MqttHealth.NoProbeBurst` | firmware-ESP32-LTE-M/main/mqtt_health.c:24-35 | Over every run: any n probes of one uninterrupted session span more than n - 1 intervals less one deadline, however late monitoring was. |
| `MqttHealth.AckGivesProof` | firmware-ESP32-LTE-M/main/mqtt_health.c:156-167 | Accepting an acknowledgement keeps the proof invariant: the window that follows ends within an interval and a deadline of it. |
| `MqttHealth.ProofKept` | firmware-ESP32-LTE-M/main/mqtt_health.c:82-220 | No other call creates proof or lets it outlive its window. |
| `MqttHealth.SpacingKept` | firmware-ESP32-LTE-M/main/mqtt_health.c:24-45 | Within a session the window stays or moves on by at least one interval, and a probe begins only in a window that has moved. |
| `MqttHealth.Health.Observe` | firmware-ESP32-LTE-M/main/mqtt_health.c:6-10 | Time never runs backwards in the record. |
| `MqttHealth.Health.Schedule` | firmware-ESP32-LTE-M/main/mqtt_health.c:24-28 | A window due at a time ends one saturated deadline later. |
| `MqttHealth.Health.ScheduleNext` | firmware-ESP32-LTE-M/main/mqtt_health.c:30-35 | The next window is one interval on, or now if that is later. |
| `MqttHealth.Health.Fail` | firmware-ESP32-LTE-M/main/mqtt_health.c:37-44 | Proof and probe are dropped, the reason kept and the next window scheduled. |
| `MqttHealth.Health.Step` | firmware-ESP32-LTE-M/main/mqtt_health.c:46-55 | A window whose deadline passed fails with the reason its probe reached. |
| `MqttHealth.Health.Connected` | firmware-ESP32-LTE-M/main/mqtt_health.c:82-92 | The whole record after a connection. |
| `MqttHealth.Health.Disconnected` | firmware-ESP32-LTE-M/main/mqtt_health.c:94-103 | The whole record after a disconnection. |
| `MqttHealth.Health.Poll` | firmware-ESP32-LTE-M/main/mqtt_health.c:105-130 | The record advanced to now, and what it reports, the freshness of proof included. |
| `MqttHealth.Health.Begin` | firmware-ESP32-LTE-M/main/mqtt_health.c:132-145 | A probe begins only inside the window of a running session, once, with the next token. |
| `MqttHealth.Health.Admitted` | firmware-ESP32-LTE-M/main/mqtt_health.c:147-154 | Only the probe in progress can be admitted, once. |
| `MqttHealth.Health.Ack` | firmware-ESP32-LTE-M/main/mqtt_health.c:156-167 | Only an admitted probe can be acknowledged; that is what makes proof. |
| `MqttHealth.Health.FailProbe` | firmware-ESP32-LTE-M/main/mqtt_health.c:169-176 | Only the probe in progress can fail. |
| `MqttHealth.Health.LoseEvents` | firmware-ESP32-LTE-M/main/mqtt_health.c:178-187 | Lost events void proof and, in a running session, the window. |
| `MqttHealth.Health.SetOta` | firmware-ESP32-LTE-M/main/mqtt_health.c:189-198 | A change of OTA state voids proof and probe and restarts the window when it ends. |
| `MqttHealth.Health.BeginWork` | firmware-ESP32-LTE-M/main/mqtt_health.c:200-207 | Work begins once. |
| `MqttHealth.Health.Checkpoint` | firmware-ESP32-LTE-M/main/mqtt_health.c:209-213 | Progress is noted only while busy. |
| `MqttHealth.Health.EndWork` | firmware-ESP32-LTE-M/main/mqtt_health.c:215-220 | The worker is idle and its checkpoint is now. |
| `MqttProof.ProofSoundness` | firmware-ESP32-LTE-M/main/mqtt_packet_guard.c:159-237 | Over every run of owner, SDK, broker and link: each accepted proof is an acknowledgement, received on the generation and inside the window of its probe, of the very publication that probe made; no token is proved twice. |
| `MqttProof.NoFalseAlarm` | firmware-ESP32-LTE-M/main/mqtt_packet_guard.c:87-157 | With an incremental SDK the guard is unsafe exactly when a connection was reported twice, or a 64-bit counter ran out, since identities were last renewed. |
| `MqttProof.FreshMeansConfirmed` | firmware-ESP32-LTE-M/main/mqtt.c:485-526 | End to end: fresh proof in the health clock means that the broker confirmed a probe on the present connection less than an interval and a deadline ago. |
| `MqttProof.StepsAreSections` | firmware-ESP32-LTE-M/main/mqtt.c:277-284 | The system steps for a PUBACK and for the end of a probing enqueue change guard and clock as the two locked sections do. |
| `MqttProof.LinkStepsAreSections` | firmware-ESP32-LTE-M/main/mqtt.c:477-559 | So do the steps that arm a probe, return from the SDK, connect, and stop the SDK. |
| `MqttProof.IdsAgree` | firmware-ESP32-LTE-M/main/mqtt_packet_guard.c:102-111 | Within the budget, two ids the SDK took are equal only when they are the same taking. |
| `MqttProof.DistanceCounts` | firmware-ESP32-LTE-M/main/mqtt_packet_guard.c:102-105 | Within the budget the cyclic distance of two ids is the number of ids taken between them. |
| `MqttProof.HeardEffect` | firmware-ESP32-LTE-M/main/mqtt_packet_guard.c:205-237 | All that a PUBACK can do to the guard: prove the pending probe, buffer one receipt, end the probe, or nothing. |
| `MqttProof.ResultEffect` | firmware-ESP32-LTE-M/main/mqtt_packet_guard.c:176-203 | All that the result of the probe's operation can do: prove by a buffered receipt, start waiting, end the probe, or nothing. |
| `MqttProof.Application.EventConnected` | firmware-ESP32-LTE-M/main/mqtt.c:254-264 | Guard and clock after CONNECTED; an unsafe guard voids proof at once. |
| `MqttProof.Application.EventDisconnected` | firmware-ESP32-LTE-M/main/mqtt.c:268-273 | Guard and clock after DISCONNECTED. |
| `MqttProof.Application.EventPublished` | firmware-ESP32-LTE-M/main/mqtt.c:277-284 | Guard and clock after PUBLISHED: proof reaches the clock only when the guard accepted it. |
| `MqttProof.Application.CompletePacket` | firmware-ESP32-LTE-M/main/mqtt.c:477-483 | A result the guard refuses counts as lost events. |
| `MqttProof.Application.Arm` | firmware-ESP32-LTE-M/main/mqtt.c:492-503 | Clock and guard begin the probe together, or both undo it and the operation. |
| `MqttProof.Application.ConcludeProbe` | firmware-ESP32-LTE-M/main/mqtt.c:511-524 | Admission, result and a proof already buffered, in one section. |
| `MqttProof.Application.SdkStopped` | firmware-ESP32-LTE-M/main/mqtt.c:549-559 | A stopped SDK leaves a disconnected guard with its reset armed. |
| `HttpDelivery.AtMostOnce` | firmware-ESP32-LTE-M/main/http_backend.c:677-746 | Over every run with lost requests, lost or unauthentic or oversize answers and forged 2xx: no command id is dispatched twice, an id is cleared as acknowledged only after its dispatch, no pending acknowledgement is evicted. |
| `HttpDelivery.RingRemembers` | firmware-ESP32-LTE-M/main/http_backend.c:275-286 | Over every run: a dispatched command that the server still queues is among the latest eight the device ran and is in its ring of sixteen. |
| `HttpDelivery.AnswerFits` | examples/http-control-server/server.py:110-151 | With a positive limit the server never hands out an answer that the device must drop for its size. |
| `HttpDelivery.ServeThins` | examples/http-control-server/server.py:110-179 | A request leaves the queue in order with places that only shrink, keeps all that was not acknowledged, refused or expired, and hands out the front of what is left. |
| `HttpDelivery.RemovedTogether` | examples/http-control-server/server.py:123-136 | What removes a dispatched command removes every earlier dispatched one too. |
| `HttpDelivery.RingCovers` | firmware-ESP32-LTE-M/main/http_backend.c:275-286 | Eight places in the queue and sixteen in the ring suffice for every dispatched command still queued. |
| `HttpDelivery.SeenIffDispatched` | firmware-ESP32-LTE-M/main/http_backend.c:722-729 | For the next command of an answer, the ring lookup says exactly whether it was ever dispatched. |
| `HttpDelivery.HandleAllKeeps` | firmware-ESP32-LTE-M/main/http_backend.c:702-745 | After each command of an answer: what was new and encodable ran once, what ran is acknowledged in the room there is, the rest is refused. |
| `HttpDelivery.ClearedWereAcked` | examples/http-control-server/server.py:159-162 | The ids the server clears are ids the device acknowledged. |
| `HttpDevice.FindReject` | firmware-ESP32-LTE-M/main/http_backend.c:317-325 | The position of the refusal recorded for an id, or none. |
| `HttpDevice.RejAdd` | firmware-ESP32-LTE-M/main/http_backend.c:313-334 | At most four refusals are ever kept. |
| `HttpDevice.Device.Seen` | firmware-ESP32-LTE-M/main/http_backend.c:275-280 | The ring lookup finds an id exactly when it is non-empty and in the ring. |
| `HttpDevice.Device.AddExecuted` | firmware-ESP32-LTE-M/main/http_backend.c:282-286 | The id takes the oldest slot of the ring. |
| `HttpDevice.Device.AddAck` | firmware-ESP32-LTE-M/main/http_backend.c:288-298 | An id is listed once; a full list loses its oldest. |
| `HttpDevice.Device.DropAcks` | firmware-ESP32-LTE-M/main/http_backend.c:300-307 | Exactly the first n acknowledgements go. |
| `HttpDevice.Device.FindRejected` | firmware-ESP32-LTE-M/main/http_backend.c:317-325 | The scan finds the refusal of that id. |
| `HttpDevice.Device.PushReject` | firmware-ESP32-LTE-M/main/http_backend.c:326-333 | The newest refusal is last; a full list loses its oldest. |
| `HttpDevice.Device.AddReject` | firmware-ESP32-LTE-M/main/http_backend.c:313-334 | An id has one refusal, under its first 47 characters, with its latest reason. |
| `HttpDevice.Device.DropRejects` | firmware-ESP32-LTE-M/main/http_backend.c:337-343 | Exactly the first n refusals go. |
| `HttpDevice.Device.Apply` | firmware-ESP32-LTE-M/main/http_backend.c:710-743 | One command: bad id, already run, nameless, unknown, dispatched or not encodable, each with its whole effect. |
| `HttpDevice.Device.HandleResponse` | firmware-ESP32-LTE-M/main/http_backend.c:677-746 | At most eight commands of an answer are applied, in order. |
| `HttpDevice.Device.FinishPost` | firmware-ESP32-LTE-M/main/http_backend.c:879-909 | After a 2xx exactly what the body carried is dropped, then the answer is applied, or reported as too large. |
| `HttpServer.IdOfInjective` | examples/http-control-server/server.py:93-94 | Different numbers give different command ids, past four digits too. |
| `HttpServer.Fitting` | examples/http-control-server/server.py:138-142 | The longest front of the chosen commands that fits, found by giving up from the end. |
| `HttpServer.State.Enqueue` | examples/http-control-server/server.py:91-98 | The queue gains one command with the next number; its id is returned. |
| `HttpServer.State.ApplyAcks` | examples/http-control-server/server.py:153-179 | Acknowledged commands go, then refused ones, matched exactly or by the cut of an over-long id; the count is of the acknowledged. |
| `HttpServer.State.TakePending` | examples/http-control-server/server.py:110-151 | Expired commands go, the oldest that fit are handed out and stamped, the rest stay. |
| `HttpServer.State.Keep` | examples/http-control-server/server.py:126-136 | A rebuilt list is what passes the test, in order. |
| `DispatchQueue.FirstFree` | firmware-ESP32-LTE-M/main/mqtt_dispatch_queue.c:42-47 | The first free slot, or none. |
| `DispatchQueue.LastSuperseded` | firmware-ESP32-LTE-M/main/mqtt_dispatch_queue.c:49-54 | The last waiting slot of the same snapshot group, or none. |
| `DispatchQueue.AnyInflight` | firmware-ESP32-LTE-M/main/mqtt_dispatch_queue.c:114-116 | Whether any slot is in flight. |
| `DispatchQueue.Head` | firmware-ESP32-LTE-M/main/mqtt_dispatch_queue.c:113-121 | The oldest waiting, unexpired slot of a class, or none. |
| `DispatchQueue.Swept` | firmware-ESP32-LTE-M/main/mqtt_dispatch_queue.c:98-105 | A sweep frees exactly the expired waiting slots. |
| `DispatchQueue.DueTokens` | firmware-ESP32-LTE-M/main/mqtt_dispatch_queue.c:98-105 | The tokens a sweep reports are exactly those of the slots it frees. |
| `DispatchQueue.Eligible` | firmware-ESP32-LTE-M/main/mqtt_dispatch_queue.c:122-127 | A head that waits for its retry blocks its class. |
| `DispatchQueue.DispatchArray.Submit` | firmware-ESP32-LTE-M/main/mqtt_dispatch_queue.c:21-91 | The whole queue and the verdict after a submission: refused, superseding, full, or placed. |
| `DispatchQueue.DispatchArray.Expire` | firmware-ESP32-LTE-M/main/mqtt_dispatch_queue.c:93-107 | The whole queue and the tokens after a sweep. |
| `DispatchQueue.DispatchArray.Claim` | firmware-ESP32-LTE-M/main/mqtt_dispatch_queue.c:109-142 | The whole queue after a claim, and the slot claimed. |
| `DispatchQueue.DispatchArray.Finish` | firmware-ESP32-LTE-M/main/mqtt_dispatch_queue.c:144-163 | The whole queue after a completion: returned for retry, or released and counted. |
| `DispatchRuns.Conservation` | firmware-ESP32-LTE-M/main/mqtt_dispatch_queue.c:57-163 | At every reachable state: accepted = coalesced + sent + expired + dropped + depth, and each token is in exactly one slot or has ended exactly once. |
| `DispatchRuns.SentInSubmissionOrder` | firmware-ESP32-LTE-M/main/mqtt_dispatch_queue.c:109-163 | Over every run: critical items, and items without a coalescing key, of one class are sent in the order submitted, despite retries and expiry. |
| `DispatchRuns.GroupsHoldTwo` | firmware-ESP32-LTE-M/main/mqtt_dispatch_queue.c:42-87 | Over every run: a topic, key, qos and retain with a key hold at most two slots. |
| `DispatchRuns.ReserveHolds` | firmware-ESP32-LTE-M/main/mqtt_dispatch_queue.c:57-63 | Over every run: noncritical items hold at most 24 slots, and a critical submission is FULL only with at least eight critical items in place. |
| `DispatchRuns.BoundedOvertaking` | firmware-ESP32-LTE-M/main/mqtt_dispatch_queue.c:128-137 | Over every run: while a noncritical head is eligible at most eight claims in a row are critical, and the next takes it. |
| `DispatchRuns.ClaimedIsOldest` | firmware-ESP32-LTE-M/main/mqtt_dispatch_queue.c:109-142 | What is claimed is the oldest of its class still alive, retry times notwithstanding, and nothing was in flight. |
| `DispatchRuns.SubmitLedger` | firmware-ESP32-LTE-M/main/mqtt_dispatch_queue.c:65-90 | A submission keeps the account of every token: the new one held, the superseded one ended. |
| `DispatchRuns.FinishLedger` | firmware-ESP32-LTE-M/main/mqtt_dispatch_queue.c:144-163 | A completion keeps the account of every token. |
| `DispatchLines.StepRefines` | firmware-ESP32-LTE-M/main/mqtt_dispatch_queue.c:21-163 | From every reachable state, every call of the slot array is a step of a machine of two sorted lines and at most one item in flight. |
| `DispatchLines.SameMembersSameLine` | firmware-ESP32-LTE-M/main/mqtt_dispatch_queue.c:114-121 | A line is fixed by its members: the order of the slots does not matter. |
| `DispatchLines.HeadIsFirstLiving` | firmware-ESP32-LTE-M/main/mqtt_dispatch_queue.c:113-121 | The head found by scanning is the first unexpired item of the line. |
| `DispatchLines.SubmitRefines` | firmware-ESP32-LTE-M/main/mqtt_dispatch_queue.c:21-91 | A submission joins the end of its line, replaces one item in place, or changes nothing. |
| `DispatchLines.ExpireRefines` | firmware-ESP32-LTE-M/main/mqtt_dispatch_queue.c:93-107 | A sweep leaves the living of both lines, in order. |
| `DispatchLines.ClaimRefines` | firmware-ESP32-LTE-M/main/mqtt_dispatch_queue.c:109-142 | A claim takes the front of one line into flight. |
| `DispatchLines.FinishRefines` | firmware-ESP32-LTE-M/main/mqtt_dispatch_queue.c:144-163 | A completion ends the item in flight or returns it to its own place in its line. |
| `MqttReceipts.ReceiptsMirrorTheQueue` | firmware-ESP32-LTE-M/main/mqtt.c:106-175 | Over every run of publishing, sweeping, claiming, concluding, taking and forgetting: a receipt is pending exactly while its token is queued or in flight, accepted exactly when sent, failed exactly when it ended otherwise; no token has two. |
| `MqttReceipts.SectionsAreCalls` | firmware-ESP32-LTE-M/main/mqtt.c:573-577 | A run of the sections is a run of queue calls, so everything proved of the queue holds of it. |
| `MqttReceipts.SectionsMoveTheQueue` | firmware-ESP32-LTE-M/main/mqtt.c:699-713 | Each section moves the queue exactly as its specification says. |
| `MqttReceipts.Outgoing.Mark` | firmware-ESP32-LTE-M/main/mqtt.c:106-110 | Every entry of that token gets the status, no other. |
| `MqttReceipts.Outgoing.Submit` | firmware-ESP32-LTE-M/main/mqtt.c:112-145 | Queue, receipts and return code after a publication, the refusal for want of a receipt included. |
| `MqttReceipts.Outgoing.FreeEntry` | firmware-ESP32-LTE-M/main/mqtt.c:127-131 | The first free entry, or none. |
| `MqttReceipts.Outgoing.Expire` | firmware-ESP32-LTE-M/main/mqtt.c:573-577 | Expired tokens leave the queue and their receipts fail, in one section. |
| `MqttReceipts.Outgoing.Conclude` | firmware-ESP32-LTE-M/main/mqtt.c:706-712 | Sent, retried or expired in flight: queue and receipt together. |
| `MqttReceipts.Outgoing.Take` | firmware-ESP32-LTE-M/main/mqtt.c:156-168 | The status is handed out, and the entry freed unless it is pending. |
| `MqttReceipts.Outgoing.Forget` | firmware-ESP32-LTE-M/main/mqtt.c:169-175 | Every entry of the token is freed. |
| `ArkivSweep.InsertSortedAt` | firmware-ESP32-LTE-M/main/arkiv_rpc.c:502-505 | Insertion lands behind everything not above the newcomer. |
| `ArkivSweep.Sweeper.Place` | firmware-ESP32-LTE-M/main/arkiv_rpc.c:502-505 | Shifting in place is sorted insertion. |
| `ArkivSweep.Sweeper.Enter` | firmware-ESP32-LTE-M/main/arkiv_rpc.c:494-506 | A full array admits a newcomer only below its highest, which is evicted and noted. |
| `ArkivSweep.Sweeper.TakePage` | firmware-ESP32-LTE-M/main/arkiv_rpc.c:696-709 | One page: the window is checked again, and the lowest number added is found. |
| `ArkivSweep.Sweeper.GatherAll` | firmware-ESP32-LTE-M/main/arkiv_rpc.c:662-718 | The walk down the sequence axis, its end and its candidates, against any node. |
| `ArkivSweep.Sweeper.PollOnce` | firmware-ESP32-LTE-M/main/arkiv_rpc.c:720-747 | One sweep: the counter, what was dispatched and attempted, and whether more is reported; one whose gather failed consumes nothing. |
| `ArkivDelivery.GatherHandsLowest` | firmware-ESP32-LTE-M/main/arkiv_rpc.c:611-718 | With a node that lists the newest of the window, a gather that did not fail hands over exactly the lowest fourteen of what the three pages reach, ascending; it is complete exactly below eighteen pending, or at eighteen when the lowest is next to the counter. |
| `ArkivDelivery.BurnsExactlyBeyondReach` | firmware-ESP32-LTE-M/main/arkiv_rpc.c:633-638 | What a sweep passes over without trying it: the pending entities beyond the newest eighteen, all of them, exactly when one of the lowest fourteen of those eighteen is valid; so it burns a valid command exactly when one lies beyond them as well. |
| `ArkivDelivery.NineteenBurn` | firmware-ESP32-LTE-M/main/arkiv_rpc.c:633-638 | Nineteen commands pending at once, an honest node that never fails: one sweep burns a valid one. |
| `ArkivDelivery.SweepClimbs` | firmware-ESP32-LTE-M/main/arkiv_rpc.c:720-744 | Against any node: at most eight commands, valid, ascending, above the old counter, which ends at the last of them. |
| `ArkivDelivery.RearmClimbs` | firmware-ESP32-LTE-M/main/arkiv_rpc.c:802-804 | Against any node: no number is dispatched twice over a whole re-arm. |
| `ArkivDelivery.RearmDrains` | firmware-ESP32-LTE-M/main/arkiv_rpc.c:784-806 | One re-arm dispatches every valid pending command, once, in sequence order, exactly when none is older than the newest eighteen pending, no fourteen refused ones in a row stand before a valid one, and nine sweeps suffice. |
| `ArkivDelivery.RearmDispatches` | firmware-ESP32-LTE-M/main/arkiv_rpc.c:784-806 | What a re-arm dispatches, from the pending entities alone: at most nine sweeps, each over the lowest fourteen of what three pages reach, up to eight valid ones or the first device operation. |
| `ArkivDelivery.DrainsExactly` | firmware-ESP32-LTE-M/main/arkiv_rpc.c:784-806 | So many sweeps take all that is valid of what they can see exactly when they are enough and no gap of fourteen refused ones stops them. |
| `ArkivDelivery.CommandsDrain` | firmware-ESP32-LTE-M/main/arkiv_rpc.c:784-806 | Without operations on the device itself nine sweeps always suffice, so only the first two conditions remain. |
| `ArkivDelivery.InsertFront` | firmware-ESP32-LTE-M/main/arkiv_rpc.c:494-506 | Walking down, the array always holds the lowest fourteen seen. |
| `ArkivDelivery.AbsorbNewest` | firmware-ESP32-LTE-M/main/arkiv_rpc.c:696-709 | A newest-first page read entity by entity leaves the lowest of what was seen. |
| `ArkivSequence.NumbersNeverRepeat` | firmware-ESP32-LTE-M/main/arkiv_writer.cpp:127-169 | Over every run of calls, commits that fail either way and reboots that read the store: numbers strictly increase and stay below 2^48 less one window. |
| `ArkivSequence.SafeExactlyWhenAhead` | firmware-ESP32-LTE-M/main/arkiv_writer.cpp:127-169 | After any run that repeated nothing yet, unreadable reboots included: no continuation repeats a number, as long as the store can be read, exactly when the counter is ahead of all that was issued. |
| `ArkivSequence.UnreadableSafeExactlyWhenUnused` | firmware-ESP32-LTE-M/main/arkiv_writer.cpp:302-309 | After any run that repeated nothing yet, a reboot whose read of the store fails is safe exactly when no number was issued before it. |
| `ArkivSequence.RepeatAfterUnreadable` | firmware-ESP32-LTE-M/main/arkiv_writer.cpp:302-309 | After any run, such a reboot and so many calls as the first number issued repeat it. |
| `ArkivSequence.FirstNumberTwice` | firmware-ESP32-LTE-M/main/arkiv_writer.cpp:302-309 | One call, an unreadable reboot and one call issue number one twice. |
| `ArkivSequence.Counter.Recover` | firmware-ESP32-LTE-M/main/arkiv_writer.cpp:296-309 | The counter resumes one above what was read; a failed read counts as zero. |
| `ArkivSequence.Counter.Persist` | firmware-ESP32-LTE-M/main/arkiv_writer.cpp:127-135 | A failed commit may leave either value. |
| `ArkivSequence.Counter.Next` | firmware-ESP32-LTE-M/main/arkiv_writer.cpp:137-169 | The number, the counter and the reservation after a call; zero when the limit or the commit refuses. |
| `ArkivBaseline.NoReplay` | firmware-ESP32-LTE-M/main/cmdauth_arkiv.c:192-282 | Over every run with reboots, rebinding, clearing and commits that fail either way, if no accepted progress was lost or left unread: under one binding accepted counters strictly climb, so no command is accepted twice. |
| `ArkivBaseline.SafeExactlyWhenCovered` | firmware-ESP32-LTE-M/main/cmdauth_arkiv.c:192-282 | After any run in which counters only climbed, lost commits and unread counters included: they only climb from there on, unless more is lost, exactly when neither RAM nor store holds a live binding behind what was accepted under it. |
| `ArkivBaseline.FallsExactlyWhenLost` | firmware-ESP32-LTE-M/main/cmdauth_arkiv.c:269-276 | On a device that was covered, after any run, an accepted command lets a later counter fall exactly when its progress was lost and the store holds the same live binding with a lower counter. |
| `ArkivBaseline.FallsExactlyWhenUnread` | firmware-ESP32-LTE-M/main/cmdauth_arkiv.c:99-132 | So does a boot exactly when it reads owner and claim but not the counter, and the stored binding is live and has accepted a command. |
| `ArkivBaseline.AcceptedAgainExactlyWhenOpen` | firmware-ESP32-LTE-M/main/cmdauth_arkiv.c:192-282 | After any run, whatever was lost or left unread in it: a command already accepted can itself, with its own epoch and block, be accepted again with nothing more going wrong exactly when RAM or store fits it and its epoch can still be met. |
| `ArkivBaseline.ReplayExactlyWhenLost` | firmware-ESP32-LTE-M/main/cmdauth_arkiv.c:269-276 | Where nothing accepted could be accepted again, accepting a command makes it so, of that very command, exactly when its progress was lost and the store holds the same live binding at the same epoch, behind it in counter and not past it in block. |
| `ArkivBaseline.ReplayExactlyWhenUnread` | firmware-ESP32-LTE-M/main/cmdauth_arkiv.c:99-132 | Likewise a boot exactly when the fields it takes for zero, counter, block or epoch, are all that kept some accepted command from fitting the stored binding. |
| `ArkivBaseline.OlderEpochStaysOut` | firmware-ESP32-LTE-M/main/cmdauth_arkiv.c:99-132 | A boot that reads the epoch, though not the counter, brings back nothing accepted under an older epoch of the binding. |
| `ArkivBaseline.LostOrUnreadReplays` | firmware-ESP32-LTE-M/main/cmdauth_arkiv.c:99-132 | The same command accepted twice: after one lost commit and a reboot, and after one boot that could not read the counter; and once if both work. |
| `ArkivBaseline.Baseline.Init` | firmware-ESP32-LTE-M/main/cmdauth_arkiv.c:99-124 | RAM after a boot: each field as stored if it could be read, else absent, zero or unclaimed. |
| `ArkivBaseline.Baseline.PersistProgress` | firmware-ESP32-LTE-M/main/cmdauth_arkiv.c:150-159 | The stored counter and block after a commit that may fail either way. |
| `ArkivBaseline.Baseline.CheckCommand` | firmware-ESP32-LTE-M/main/cmdauth_arkiv.c:161-282 | Acceptance, exactly, and the baseline in RAM and store after it. |
| `ArkivBaseline.Baseline.BindOwner` | firmware-ESP32-LTE-M/main/cmdauth_arkiv.c:293-330 | A binding starts a counter of its own; RAM follows a reported success only. |
| `ArkivBaseline.Baseline.RatchetEpoch` | firmware-ESP32-LTE-M/main/cmdauth_arkiv.c:332-351 | The epoch only rises. |
| `ArkivBaseline.Baseline.ClearBinding` | firmware-ESP32-LTE-M/main/cmdauth_arkiv.c:353-378 | RAM forgets the binding even when the store could not be written. |
| `UpdateClaims.Exclusion` | firmware-ESP32-LTE-M/main/fw_ota.c:133-180 | In every interleaving: the update claim excludes validation and modem recovery, has exactly one owner, and MQTT was told. |
| `UpdateClaims.BrickGuard` | firmware-ESP32-LTE-M/main/fw_ota.c:886-916 | In every interleaving: the passive slot is written only under the claim with the running image confirmed, and a rollback never starts during or after such a write. |
| `UpdateClaims.SwitchesToCommandedImage` | firmware-ESP32-LTE-M/main/fw_ota.c:1177-1209 | In every interleaving: the boot slot is switched for at most one command, to bytes with its digest, which nobody overwrites. |
| `UpdateClaims.FailedRollbackFreezes` | firmware-ESP32-LTE-M/main/fw_ota.c:1392-1417 | After a rollback that could not reboot, and whatever follows until the device restarts, the image stays unconfirmed, the slot as found and the boot slot unswitched. |
| `UpdateClaims.RequestKeeps` | firmware-ESP32-LTE-M/main/fw_ota.c:850-927 | Every step of an update request keeps the invariant. |
| `UpdateClaims.TaskKeeps` | firmware-ESP32-LTE-M/main/fw_ota.c:372-572 | Every step of the download task keeps it. |
| `UpdateClaims.ReceiverKeeps` | firmware-ESP32-LTE-M/main/fw_ota.c:1050-1210 | Every step of the local receiver keeps it. |
| `UpdateClaims.ValidationKeeps` | firmware-ESP32-LTE-M/main/fw_ota.c:1335-1417 | Every step of confirmation, rollback and recovery keeps it. |
| `UpdateClaims.Arbiter.Claim` | firmware-ESP32-LTE-M/main/fw_ota.c:161-172 | Granted exactly when nothing else stands; MQTT is told. |
| `UpdateClaims.Arbiter.Release` | firmware-ESP32-LTE-M/main/fw_ota.c:174-180 | The claim is gone and MQTT is told. |
| `UpdateClaims.Arbiter.TryRecovery` | firmware-ESP32-LTE-M/main/fw_ota.c:141-150 | Granted exactly when nothing stands and the nested commit agrees. |
| `UpdateClaims.Arbiter.FinishRecovery` | firmware-ESP32-LTE-M/main/fw_ota.c:152-157 | Only the recovery flag falls. |
| `UpdateClaims.Arbiter.EnterConfirm` | firmware-ESP32-LTE-M/main/fw_ota.c:1335-1362 | Denied, already confirmed or entered, in that order of tests. |
| `UpdateClaims.Arbiter.LeaveConfirm` | firmware-ESP32-LTE-M/main/fw_ota.c:1367-1374 | Confirmed, or as before. |
| `UpdateClaims.Arbiter.EnterRollback` | firmware-ESP32-LTE-M/main/fw_ota.c:1392-1405 | Entered exactly when due. |
| `UpdateClaims.Arbiter.LeaveRollback` | firmware-ESP32-LTE-M/main/fw_ota.c:1411-1415 | A failed rollback blocks another, and confirmation. |
| `FwTransfer.Receiver.Abort` | firmware-ESP32-LTE-M/main/fw_ota.c:1050-1059 | The session is closed. |
| `FwTransfer.Receiver.Begin` | firmware-ESP32-LTE-M/main/fw_ota.c:1061-1124 | A BEGIN ends any open session and opens one, or none. |
| `FwTransfer.Receiver.Data` | firmware-ESP32-LTE-M/main/fw_ota.c:1126-1156 | Bytes are staged only in sequence and within the length; anything else but an empty chunk or a closed session ends it. |
| `FwTransfer.Receiver.End` | firmware-ESP32-LTE-M/main/fw_ota.c:1158-1210 | Commit only a complete image; every other END closes the session. |
| `FwTransfer.Correlator.Arm` | firmware-ESP32-LTE-M/main/fw_ota.c:602-607 | The next number modulo 256 is armed before the frame goes out. |
| `FwTransfer.Correlator.OnResp` | firmware-ESP32-LTE-M/main/fw_ota.c:1251-1258 | Only the armed operation and number are answered, once. |
| `FwTransferLink.AnswersMatch` | firmware-ESP32-LTE-M/main/fw_ota.c:597-618 | Over every run with loss and delay on an ordered link: no answer is taken for one to another attempt. |
| `FwTransferLink.CommitsAreStreams` | firmware-ESP32-LTE-M/main/fw_ota.c:1158-1210 | Over every such run: what is committed is the whole stream of its transfer, and what the relay saw complete was committed. |
| `FwTransferLink.SessionInLockstep` | firmware-ESP32-LTE-M/main/fw_ota.c:722-803 | Over every such run: an open session holds a prefix of its stream, while streaming at the bytes acknowledged or one chunk further. |
| `FwTransferLink.ToleratesExactly` | firmware-ESP32-LTE-M/main/fw_ota.c:597-618 | Runs in which at most so many transfers in a row go without one answer are free of confused answers, and receiver and relay in lockstep, exactly when that number is at most 128. |
| `FwTransferLink.LongSilenceMisleads` | firmware-ESP32-LTE-M/main/fw_ota.c:600-607 | At the 129th transfer without an answer the answer to the first attempt can be taken for one to attempt 257, and lockstep is lost: a run that shows it. |
| `FwTransferLink.BoundedIsPrompt` | firmware-ESP32-LTE-M/main/fw_ota.c:600-607 | Within 128 such transfers no answer of the kind awaited is 256 attempts old. |
| `FwTransferLink.AnswerIsCurrent` | firmware-ESP32-LTE-M/main/fw_ota.c:1251-1258 | An answer that matches by operation and number is the one to the present attempt, and nothing else is under way behind it. |
| `FwHttpPolicy.ReadDecimal` | firmware-ESP32-LTE-M/main/fw_ota_http_policy.c:12-23 | The loop reads a run of digits exactly when its value fits 32 bits, refusing before it overflows. |
| `FwHttpPolicy.SkipSpace` | firmware-ESP32-LTE-M/main/fw_ota_http_policy.c:7-10 | What is skipped is blank and what follows is not. |
| `FwHttpPolicy.Metadata.Header` | firmware-ESP32-LTE-M/main/fw_ota_http_policy.c:25-64 | The record after one header, of any kind. |
| `FwHttpPolicy.Metadata.ReadRange` | firmware-ESP32-LTE-M/main/fw_ota_http_policy.c:36-47 | First, last and total as far as the text has them. |
| `FwHttpPolicy.Metadata.OnStatus` | firmware-ESP32-LTE-M/main/fw_ota.c:319-321 | A new status line clears the record. |
| `FwHttpHeaders.AcceptedExactlyWhenNamed` | firmware-ESP32-LTE-M/main/fw_ota_http_policy.c:25-75 | A response is accepted exactly when its headers as text have one Content-Length and, resuming, one Content-Range that name the bytes from the offset to the end of the image, nothing encoded. |
| `FwHttpHeaders.LengthExact` | firmware-ESP32-LTE-M/main/fw_ota_http_policy.c:31-35 | A Content-Length is read exactly when it is blanks, a 32-bit number, blanks. |
| `FwHttpHeaders.RangeExact` | firmware-ESP32-LTE-M/main/fw_ota_http_policy.c:36-47 | A Content-Range is read exactly when it is a bytes range with all three numbers, and then as those. |
| `FwHttpHeaders.IdentityExact` | firmware-ESP32-LTE-M/main/fw_ota_http_policy.c:48-53 | A Content-Encoding is let through exactly when it is identity between blanks. |
| `FwHttpHeaders.HeadersReflect` | firmware-ESP32-LTE-M/main/fw_ota_http_policy.c:25-64 | After any headers the record reflects their text: counts, values, and invalid exactly when one is malformed or repeated. |
| `FwResume.FlashIsContiguous` | firmware-ESP32-LTE-M/main/fw_ota.c:392-530 | Against any server, over up to five attempts: flash up to the checkpoint is a gap-free chain of pieces, each from a response accepted as exactly the bytes from its offset on. |
| `FwResume.DownloadIsImage` | firmware-ESP32-LTE-M/main/fw_ota.c:392-530 | With a server that serves one fixed image: flash up to the checkpoint is the image's beginning, and a finished download is the image. |
| `FwResume.OneContiguous` | firmware-ESP32-LTE-M/main/fw_ota.c:459-498 | One library call keeps the chain, whether it ends the attempt or not. |
| `FwResume.Downloader.PerformOne` | firmware-ESP32-LTE-M/main/fw_ota.c:459-498 | One library call: checkpoint, flash, and whether and how the attempt ends. |
| `FwResume.Downloader.Receive` | firmware-ESP32-LTE-M/main/fw_ota.c:459-503 | The calls of one attempt. |
| `FwResume.Downloader.TryOnce` | firmware-ESP32-LTE-M/main/fw_ota.c:393-503 | One attempt: tiny prefix dropped, fallback restarted, response checked before any write. |
| `FwResume.Downloader.Execute` | firmware-ESP32-LTE-M/main/fw_ota.c:392-530 | The attempts, their bound and their delays. |
| `PppEvents.SameSequenceSameState` | firmware-ESP32-LTE-M/main/modem.c:1635-1648 | Fewer than 2^32 changes later, an unchanged sequence number means that nothing at all happened. |
| `PppEvents.TellsApartExactly` | firmware-ESP32-LTE-M/main/modem.c:269-354 | The 32-bit number tells states apart over so many changes exactly when they are fewer than 2^32. |
| `PppEvents.FullTurnConfuses` | firmware-ESP32-LTE-M/main/modem.c:1635-1648 | After 2^32 changes, a loss among them, the teardown commits on a session that is not the one observed. |
| `PppEvents.SequenceCountsMoves` | firmware-ESP32-LTE-M/main/modem.c:269-375 | Every call that changes anything moves the sequence by one, modulo 2^32. |
| `PppEvents.StoppedStaysDown` | firmware-ESP32-LTE-M/main/modem.c:319-340 | Once stopping, no observation brings the interface back before the next dial. |
| `PppEvents.Lifecycle.Prepare` | firmware-ESP32-LTE-M/main/modem.c:269-282 | The state of a new attempt. |
| `PppEvents.Lifecycle.Dial` | firmware-ESP32-LTE-M/main/modem.c:284-295 | The state at a dial. |
| `PppEvents.Lifecycle.Stop` | firmware-ESP32-LTE-M/main/modem.c:297-303 | Stopping, one event on. |
| `PppEvents.Lifecycle.TakeLossOnce` | firmware-ESP32-LTE-M/main/modem.c:305-317 | A loss is taken once, and stops. |
| `PppEvents.Lifecycle.See` | firmware-ESP32-LTE-M/main/modem.c:319-354 | What an observation changes, and whether it counts. |
| `PppEvents.Lifecycle.WaitOnce` | firmware-ESP32-LTE-M/main/modem.c:361-367 | A wait stops on loss, and on timeout unless up. |
| `PppEvents.Lifecycle.Commit` | firmware-ESP32-LTE-M/main/modem.c:1635-1648 | Stops exactly the session that was seen. |
| `Teardown.TeardownIsLinearized` | firmware-ESP32-LTE-M/main/modem.c:1851-1933 | A successful teardown in MQTT mode, after three separate reads of PPP, backend and MQTT, is one instant at which no update is under way, MQTT is disconnected with generation and last answer as they were read, and the PPP session is up and untouched since its read. |
| `Teardown.StraysExactlyAfterFullTurn` | firmware-ESP32-LTE-M/main/modem.c:1635-1660 | A teardown can succeed on a PPP session that changed since its read exactly when 2^32 changes fit in between. |
| `Teardown.RecoveryExcludes` | firmware-ESP32-LTE-M/main/fw_ota.c:141-172 | Until the recovery finishes no update claim and no second teardown succeeds. |
| `Teardown.LateAddressIgnored` | firmware-ESP32-LTE-M/main/modem.c:305-340 | An address after the commit does not revive the session. |
| `Teardown.Watchdog.CommitMqtt` | firmware-ESP32-LTE-M/main/mqtt.c:215-229 | Agreed exactly when MQTT is down, unproven, idle and as it was seen, and PPP commits. |
| `Teardown.Watchdog.CommitBackend` | firmware-ESP32-LTE-M/main/modem.c:1650-1660 | The backend is the one decided for, and MQTT agrees where it is that. |
| `Teardown.Watchdog.Try` | firmware-ESP32-LTE-M/main/fw_ota.c:141-150 | The three locks nested: all of it happens, or only the health poll. |
| `RadioText.OkExactly` | firmware-ESP32-LTE-M/main/modem_radio_policy.c:60-84 | An answer is accepted exactly when it is short, printable, has one OK line and no terminal error line. |
| `RadioText.StatusOnlyHardens` | firmware-ESP32-LTE-M/main/modem_radio_policy.c:60-84 | More of a response never takes an error back nor an OK to waiting. |
| `RadioText.Classify` | firmware-ESP32-LTE-M/main/modem_radio_policy.c:60-84 | The scan gives the status of the complete lines. |
| `RadioText.ReadUnsigned` | firmware-ESP32-LTE-M/main/modem_radio_policy.c:125-142 | A number in front, refused before it overflows 32 bits. |
| `RadioText.ReadScalarText` | firmware-ESP32-LTE-M/main/modem_radio_policy.c:144-164 | The one value of the key, in front of OK, or nothing. |
| `RadioText.ReadScalarLine` | firmware-ESP32-LTE-M/main/modem_radio_policy.c:154-161 | One line of a scalar answer: skipped, read as the one value, or refused. |
| `RadioText.ReadBandList` | firmware-ESP32-LTE-M/main/modem_radio_policy.c:188-205 | The bitmap of bands seen gives the verdict on the list. |
| `RadioText.ReadBandsText` | firmware-ESP32-LTE-M/main/modem_radio_policy.c:166-209 | The verdict on the bands read back. |
| `RadioText.MatchExactly` | firmware-ESP32-LTE-M/main/modem_radio_policy.c:166-209 | The bands match exactly when no line is malformed and one line alone, in front of any OK, tells of bands other than NB-IoT ones, and lists 3,20 or 20,3. |
| `RadioText.ReadBandLine` | firmware-ESP32-LTE-M/main/modem_radio_policy.c:174-205 | One line of the band answer: skipped, read as the one band list, or refused. |
| `RadioPolicy.PrepareFailsClosed` | firmware-ESP32-LTE-M/main/modem_radio_policy.c:229-244 | Against any modem: preparing never sends CFUN=1, every failure ends with CFUN=4, every success with the three wanted settings just read back. |
| `RadioPolicy.ResumeFailsClosed` | firmware-ESP32-LTE-M/main/modem_radio_policy.c:246-259 | Against any modem: CFUN=1 is sent only behind settings read back as wanted and a radio read as off; success ends with CFUN read as 1; every failure with CFUN=4. |
| `RadioPolicy.SettingsMatch` | firmware-ESP32-LTE-M/main/modem_radio_policy.c:211-221 | A match means that the last three answers were 38, 1 and the wanted bands. |
| `RadioPolicy.ReadBackShows` | firmware-ESP32-LTE-M/main/modem_radio_policy.c:211-221 | Where the settings were read back as wanted, the last answer is a text that shows bands 3 and 20 and nothing else. |
| `RadioPolicy.Radio.Exchange` | firmware-ESP32-LTE-M/main/modem_radio_policy.c:86-99 | One command, and its answer if it is an accepted one. |
| `RadioPolicy.Radio.CommandOk` | firmware-ESP32-LTE-M/main/modem_radio_policy.c:101-107 | One command, and whether it was accepted. |
| `RadioPolicy.Radio.ReadScalar` | firmware-ESP32-LTE-M/main/modem_radio_policy.c:144-164 | One command, and the value read. |
| `RadioPolicy.Radio.ReadBands` | firmware-ESP32-LTE-M/main/modem_radio_policy.c:166-209 | The band query and its verdict. |
| `RadioPolicy.Radio.ReadBack` | firmware-ESP32-LTE-M/main/modem_radio_policy.c:211-221 | The three queries, up to the first unreadable answer. |
| `RadioPolicy.Radio.Close` | firmware-ESP32-LTE-M/main/modem_radio_policy.c:223-227 | CFUN=4 is sent, and false returned. |
| `RadioPolicy.Radio.PrepareRadio` | firmware-ESP32-LTE-M/main/modem_radio_policy.c:229-244 | The whole command log and the result. |
| `RadioPolicy.Radio.ResumeRadio` | firmware-ESP32-LTE-M/main/modem_radio_policy.c:246-259 | The whole command log and the result. |
| `WupsFrame.DecodeInvertsBuild` | tools/wups-mqtt-sniff.py:70-94 | Decoding gives back exactly what was framed, checks good and nothing trailing. |
| `WupsFrame.BuildInvertsDecode` | tools/wups-mqtt-sniff.py:70-94 | What decodes cleanly is, up to what trails it, the frame built from its parts. |
| `WupsFrame.SecondByteIsWeighted` | tools/wups-mqtt-sniff.py:57-62 | The running sum of sums is the sum weighted by distance from the end. |
| `WupsFrame.OneByteDetected` | common/protocol.h:694-703 | Any change of one byte changes the first check byte. |
| `WupsFrame.TwoBytesUndetectedExactly` | common/protocol.h:694-703 | A change of two bytes goes unseen exactly when the changes cancel and the distance times one of them is a multiple of 256. |
| `WupsFrame.OddDistanceDetected` | common/protocol.h:694-703 | Two changed bytes an odd distance apart are always seen. |
| `WupsFrame.CorruptedFrameFails` | tools/wups-mqtt-sniff.py:77-84 | A frame with one changed byte of addressing or payload decodes with a failed check. |
| `WupsFrame.CorruptedFrameNeverClean` | tools/wups-mqtt-sniff.py:70-87 | A frame with any one byte changed, sync, length and trailer included, never decodes as one clean frame with nothing trailing. |
| `WupsFrame.TwoCorruptedBytesPassExactly` | tools/wups-mqtt-sniff.py:77-84 | Two changed bytes of addressing or payload pass the check of the decoder exactly when the changes cancel and the distance times one of them is a multiple of 256. |
| `WupsFrame.TwoCorruptedBytesFailAtOddDistance` | tools/wups-mqtt-sniff.py:77-84 | At an odd distance they never pass. |
| `WupsFrame.TwoCorruptedBytesCanPass` | tools/wups-mqtt-sniff.py:77-84 | The top bits of two payload bytes two apart: a frame that passes. |
| `WupsFrame.Fletcher8` | tools/wups-mqtt-sniff.py:57-62 | The loop computes both sums modulo 256. |
| `WupsFrame.CheckOver` | firmware-ESP32-LTE-M/main/http_backend.c:366-370 | The loop over the output buffer computes the same check. |
| `WupsFrame.EncodeFrame` | firmware-ESP32-LTE-M/main/http_backend.c:348-376 | The buffer holds exactly the frame and behind it what it held before, or nothing was written and zero returned. |
| `Bip39.PackedWordsAgree` | firmware-ESP32-LTE-M/main/bip39.c:12-63 | Word indices from the packed bytes are those from the digest. |
| `Bip39.SamePackExactlySameWords` | firmware-ESP32-LTE-M/main/bip39.c:12-63 | Two digests pack alike exactly when they give the same word indices. |
| `Bip39.SpokenExactlyPacked` | firmware-ESP32-LTE-M/main/bip39.c:23-63 | Two digests are spoken alike exactly when they pack alike, given distinct words without spaces. |
| `Bip39.SpokenInjective` | firmware-ESP32-LTE-M/main/bip39.c:33-46 | Different indices are spoken differently. |
| `Bip39.Take11` | firmware-ESP32-LTE-M/main/bip39.c:12-21 | The loop reads the eleven bits, below 2048. |
| `Bip39.PackTopBits` | firmware-ESP32-LTE-M/main/bip39.c:49-63 | The first bits are the digest's, the trailing ones zero, the rest of the buffer untouched; or a refusal with nothing changed. |
| `Bip39.WordsFromBits` | firmware-ESP32-LTE-M/main/bip39.c:23-47 | The buffer holds the words of the indices with single spaces and a terminator, the rest untouched; or, when the text does not fit, as many words as fit and a refusal; or a refusal with nothing changed. |

## Left out

Contracts that say less than one might expect:

- FwTransferLink.AnswersMatch: holds while no more than 128 transfers in a row were begun without one answer (`Heard`); beyond that it is false, as `ToleratesExactly` proves.
- FwTransferLink.CommitsAreStreams: under the same condition; the digest that the receiver checks before it commits is part of the arbitrary refusal, so beyond the bound the model says nothing of the bytes.
- FwTransferLink.SessionInLockstep: under the same condition; beyond it lockstep is lost, as `ToleratesExactly` proves.
- DispatchRuns.SentInSubmissionOrder: says nothing about items with a coalescing key; a replaced item keeps its old place and a retried one can go out behind its successor.
- ArkivDelivery.GatherHandsLowest: assumes a node that answers each query with the newest page of the window, numbers that are distinct, and none equal to 2^64 - 1; the window filter itself is checked by the model against any node.
- ArkivDelivery.RearmDrains: assumes, beyond that, a node whose queries do not fail during the re-arm; a failed one ends it early and consumes nothing.
- ArkivSequence.NumbersNeverRepeat: every reboot reads the store; all other runs are decided by `SafeExactlyWhenAhead`.
- ArkivBaseline.NoReplay: no accepted progress was lost by a failed commit or left unread by a boot; all other runs are decided by `SafeExactlyWhenCovered` and `AcceptedAgainExactlyWhenOpen`. The fields written by one commit are stored or lost together, though each is read on its own.
- PppEvents.SameSequenceSameState: fewer than 2^32 changes; beyond that it is false, as `TellsApartExactly` proves.
- Teardown.TeardownIsLinearized: fewer than 2^32 changes; beyond that it is false, as `StraysExactlyAfterFullTurn` proves.
- HttpDelivery.AtMostOnce: the device and the server do not restart, the server's clock does not run backwards, and ids stay below 48 characters (a 46-digit number).
- WupsFrame.CorruptedFrameFails: a changed length byte moves the check bytes, so the check alone may pass; `CorruptedFrameNeverClean` covers it.

Not modelled:

- Sockets, TLS, HTTP clients, UART, flash and storage drivers, task scheduling, logging, JSON text. A command body is one of four classes (nameless, unknown, unencodable, encodable); how `build_cmd_payload` encodes each command is not described.
- Cryptography: digests, signatures and message authentication are uninterpreted functions or the answer of an oracle.
- Null arguments, embedded NUL characters, and malformed transfer frames (a short or foreign BEGIN, DATA or END is answered without touching the session).
- `mqtt.c` beyond its locked sections: connection backoff, bootstrap subscriptions, outbox size limits, inbound commands, and QoS 0 publications, which use no packet id.
- The `full` counter of the queue and other 64-bit diagnostics are unbounded.
- A POST that arrives after the device gave up on it, and reboots of either side of the HTTP protocol: the ring of executed ids is in RAM and the server's numbering restarts.
- Update requests from two tasks at once: requests arrive one after another, as the one active backend delivers them. A reboot ends a run of `UpdateClaims`.
- The RP2040's own receiver: the model uses the receiver of `fw_ota.c`, which follows the same protocol. Redirects and hashing in the relay, and its wait for the RP2040's greeting, are not described.
- Races inside `fw_ota_xfer_on_resp`: each handler is one step.
- The blocking wait around `ppp_events_wait_for_link`: one pass under the lock is modelled.
- The health checks of the HTTP and Arkiv backends before a teardown.
- A boot at which the store of the Arkiv binding cannot be opened: the device then accepts nothing until it restarts.
- The word list: assumed to be 2048 distinct words without spaces.
- `modem_awake_policy.c`, `modem_uart_baud.c`, `modem_signal.c`, `modem_recovery.c`: parsers of the same shape as the radio policy's; menus, diagnostics, factory reset and wallet regeneration would add only easy members.
