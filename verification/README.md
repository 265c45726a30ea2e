# Verification of the MQTT client's durability and evidence protocols

This project models the parts of the MoonBit MQTT client and of its operator and test tools whose
correctness depends on many steps, crashes or inputs at once, and proves what those parts are for.
`dafny verify dfyconfig.toml` checks everything.

## What is modelled

**Recovery of a retired outbox** (`identity.dfy`, `recovery_*.dfy`). `scripts/durable_recovery.py`
drives a nine-phase journal and performs external effects between its commits. `RecoveryMachine` is that
protocol as a machine over atomic effects: paths bound to inodes by create-new links, the source store,
the journal row and the log of broker cleanups. A process may die between any two effects; other inputs
are foreign files, client scopes that write stores of their own identity, and a broker that accepts or
refuses. `RecoveryTool.Tool` is the same operation as the source has it, straight-line code over mutable
state, proved to end where the machine ends after any number of effects. The theorems are fencing and
order, conservation, no overwrite, inertness of other requests, progress and crash refinement.

**In-memory delivery** (`delivery_*.dfy`). `DeliveryRecord` and `DeliveryBook` are classes with the fields
and methods of `delivery.mbt`. Three collections must agree through admission, acknowledgement, rejection,
teardown, replay and shutdown; the packet-id scan wraps around; a record must tell "not sent" from "outcome
unknown" over any number of connection generations.

**The durable client** (`durable_*.dfy`). A state machine whose steps are stretches of code between two
suspension points, or committed store transactions: the holder of the durable gate, the writer, the reader,
the watchdog, the supervisor and ordinary requests interleave freely and the process may die anywhere. The
theorems are write-ahead recovery, soundness of settled handles, capacity, book coherence (with the
`reserved` map as state of its own) and reopening.

**Evidence recorder and correlator** (`socket_observer.dfy`, `observer_log.dfy`, `dial_evidence.dfy`,
`closure_evidence.dfy`). The C observer is a class over descriptor-indexed arrays and a bounded log; the
Python correlator is a set of loops over its rows. Producer and consumer are proved against each other, and
the correlator's matching is proved to be the only one.

**First packet and WebSocket peer** (`mqtt_framing.dfy`, `websocket_peer.dfy`). An incremental frame parser
that must not depend on chunking, and a frame printer, frame reader and stream re-segmenter.

**Histogram audit** (`order_statistics.dfy`, `measurement_audit.dfy`). Exact order statistics of a
population whose raw samples were never stored, and the agreement of the older percentile with them.

## What the code does where a promise is too strong

- The tool itself, its crashes and a refusing broker never make an operation impossible to complete
  (`RecoveryProgress.CrashProgress`), but others can: a stranger who occupies the target path before it is
  published, or a client that writes the source after the archive was made and before retirement. A client
  may also open the published target before `ReplacementPublished` is committed; that changes the target's
  bytes, so they are no longer the recorded ones and the operation is not `Viable`.
  `RecoveryProgress.StrangerExample` is a concrete case, and `RecoveryTheorems.Progress` the exact condition,
  `Viable`, under which a resume completes whatever others did before.
- A clock that is merely not set back does not satisfy the correlator: connect and close must carry
  different times (`tests/closure/dial_evidence.py:266`). `ClosureEvidence.OneTickRefused` is a concrete
  proper run that is refused; `ClosureEvidence.OnlyTheWorldCanFail` is the exact condition.
- `FirstPacket` is independent of chunking only up to 65536 bytes of stream. `FirstPackets.SplitMatters` is
  one stream of 65537 bytes with two results; `FirstPackets.AnyStream` says for every stream and split what
  the result is.
- The older percentile's `int(x + .999999)` is the ceiling exactly when the fractional part of `x` is zero
  or at least a millionth (`LegacyPercentile.TargetIsCeiling`), which every fraction with a denominator up
  to a million satisfies.
- `docs/architecture/DURABLE-RECOVERY.md:92-94` says that an existing archive is rejected for a new
  operation, and line 251 that a missing staging file fails closed. The code accepts an archive that is
  exactly this operation's (`scripts/durable_recovery.py:1002-1007`), which is the crash window before the
  journal, and rebuilds a missing staging file before publication (lines 1110-1117). The model follows the code.

## How things are represented

- SHA-256 is taken to be injective, so a digest is represented by the value it digests. A stored identity
  is a printed text or a tombstone naming an operation and an archive; `Identity.TombstonesAreFenced`
  justifies keeping the two apart.
- Store transactions and file-system links are atomic; temporary names are fresh and carry a number.
- Bytes are integers from 0 to 255; `& 127`, `& 128`, `& 15` and `& 1` on them are remainders and comparisons,
  exclusive or is defined bit by bit.
- Answers of the broker, clocks, the real system calls, encoders and queue limits are inputs.

## Model

| member | source | states |
|---|---|---|
| `RecoveryRefinement.CrashRefinement` | scripts/durable_recovery.py:993-1139 | Crash refinement: whenever a run of launches, effects, broker answers and crashes (no other actor) reaches `Complete`, a single uninterrupted launch of the same request from the same start completes too, and both leave the same source, archive, journal (up to the staging file) and target. |
| `RecoveryRefinement.OneResult` | scripts/durable_recovery.py:1042-1139 | Every such run that completes request `r` has the one result written out by `Expected`: the source under this operation's tombstone with its rows, sequence and known-session untouched, the archive of the snapshot before, the journal row, and an empty target for the new session; and `r` was viable at the start. |
| `RecoveryProgress.CrashProgress` | scripts/durable_recovery.py:993-1139 | Progress, with no hypothesis on the state a crash leaves: if the operation is possible at the start and the tool works on it in any way (launches of its request, any broker answers, death between any two effects), then one uninterrupted resume with an accepting broker ends `Complete` and leaves the operation's one result. This covers archive without journal, source retired but `Prepared`, target linked with the stage present, and stage gone with the phase uncommitted. |
| `RecoveryProgress.StaysViable` | scripts/durable_recovery.py:993-1139 | No crash and no refused handshake, wherever it falls, makes the operation impossible to complete. |
| `RecoveryProgress.PreparedProgress` | scripts/durable_recovery.py:748-766 | From any start, with launches of any requests in between: as soon as a journal exists, its operation completes on the next uninterrupted resume. |
| `RecoveryProgress.StrangerBlocks` | scripts/durable_recovery.py:1147-1152 | What only others can do: a file put at the target path while the tool is down before it has a journal makes every later resume refused on entry, without effect. |
| `RecoveryProgress.StrangerExample` | scripts/durable_recovery.py:1147-1152 | A concrete request and world for which this happens. |
| `RecoveryTheorems.Progress` | scripts/durable_recovery.py:1052-1139 | With outside interference of any kind before: from every reachable state with no process running, one uninterrupted resume with an accepting broker ends `Complete` if and only if the operation is `Viable`, which an operator can check on files and rows beforehand; otherwise it is refused. |
| `RecoveryTheorems.ResumeAfterAnything` | tests/durable_recovery_admin.py:560-598 | The same equivalence after any history at all from a fresh start: crashes in any window, refusals, foreign files, client writes. |
| `RecoveryTheorems.Fencing` | scripts/durable_recovery.py:1071-1082 | In every reachable state: a cleanup was sent only after the source became the archived snapshot under this operation's tombstone; every cleanup names its own client id; a new-session cleanup follows an accepted old-session one; each session is cleaned at most once plus the processes that had opened this journal and stopped inside its own `Requested` window. |
| `RecoveryTheorems.Conservation` | scripts/durable_recovery.py:1023-1039 | A retired source equals the archived snapshot under the tombstone for ever after, archive and journal stay the same, and the phase never goes back. |
| `RecoveryTheorems.StepExtends` | scripts/durable_recovery.py:117-128 | One step of anyone never rebinds a bound archive, journal or target path, never shortens the cleanup log, never changes journal content other than phase and staging file, and changes the source identity only from old to retired and never back. |
| `RecoveryTheorems.RunExtends` | scripts/durable_recovery.py:748-833 | The same over every run: no overwrite, monotone phase, growing log, one retirement. |
| `RecoveryTheorems.OnlyPublishes` | scripts/durable_recovery.py:1095-1131 | A process newly binds a caller's path in two cases only: the archive, with exactly the snapshot's container, before there is a journal; and the target, in phase `ReplacementReady`, with the new identity, sequence 1 and no row, linked to an existing file. So no old row reaches the target. |
| `RecoveryTheorems.OtherRequestsAreInert` | scripts/durable_recovery.py:748-766 | Once a journal exists, launching a request that differs from it changes nothing and ends at once. |
| `RecoveryTheorems.ProceedOnward` | scripts/durable_recovery.py:1052-1139 | One uninterrupted step either stops with the right verdict or strictly decreases the number of effects left, with `ReplacementReady` allowed one commit to itself. |
| `RecoveryInvariant.StepKeeps` | scripts/durable_recovery.py:769-833 | Every step of the tool, of a crash, of a client or of a stranger keeps the invariant: journal row consistent with request and archive, retirement before cleanup, cleanup before replacement, staged file private and unchanged until it is published. |
| `RecoveryInvariant.RunKeeps` | scripts/durable_recovery.py:993-1139 | The invariant holds in every state of every run. |
| `RecoveryInvariant.ProceedKeeps` | scripts/durable_recovery.py:1042-1139 | Each single effect of a process keeps the durable invariant and what the process relies on next. |
| `RecoveryInvariant.WindowCounts` | scripts/durable_recovery.py:1073-1082 | A cleanup handshake is paid for by the confirmation it earns or by the stop it causes, so repetitions are bounded by interruptions in the window. |
| `RecoveryTool.UntilIsRun` | scripts/durable_recovery.py:1142-1177 | A whole call, killed after any number of effects or ending by itself, is a run of the step machine, so every theorem about runs applies to it. |
| `RecoveryTool.Tool.Resolve` | scripts/durable_recovery.py:1142-1177 | `resolve`/`resume` written as straight-line code leaves exactly the files, rows, log and outcome in which the step machine stops or dies; a request refused on entry changes nothing. |
| `RecoveryTool.Tool.PrepareResolution` | scripts/durable_recovery.py:993-1020 | Preparation follows the machine effect by effect, accepts an existing archive only if it is exactly this operation's, and ends with a published journal or the machine's stop. |
| `RecoveryTool.Tool.BuildArchive` | scripts/durable_recovery.py:393-435 | Staging, create-new link and unlink of the archive follow the machine; a lost race is refused and the stage removed. |
| `RecoveryTool.Tool.CreateJournal` | scripts/durable_recovery.py:700-746 | The journal row is derived from the published archive and published through a staging file without replacement. |
| `RecoveryTool.Tool.PublishJournal` | scripts/durable_recovery.py:736-746 | Publication of the staged journal and removal of the staging link, with a crash possible in between. |
| `RecoveryTool.Tool.OpenJournal` | scripts/durable_recovery.py:748-767 | Opening verifies archive, request and source and either refuses without effect or continues as the machine does, with the journal of this very request. |
| `RecoveryTool.Tool.UpdatePhase` | scripts/durable_recovery.py:811-833 | One committed row update sets the phase; every other field of the row and everything else in the world is as before. |
| `RecoveryTool.Tool.RetireSource` | scripts/durable_recovery.py:1052-1069 | The retirement transaction, then the `SourceRetired` commit, then reconciliation; the transaction is skipped when an earlier process has committed it. |
| `RecoveryTool.Tool.RecordIntent` | scripts/durable_recovery.py:1071-1078 | The intent to clean is committed before the broker is contacted. |
| `RecoveryTool.Tool.CleanBrokerSession` | scripts/durable_recovery.py:842-938 | One handshake; only an accepted CONNACK reaches the confirming commit. |
| `RecoveryTool.Tool.CreateReplacement` | scripts/durable_recovery.py:940-974 | The empty replacement is staged in a fresh file and recorded in the journal before it is published. |
| `RecoveryTool.Tool.PublishReplacement` | scripts/durable_recovery.py:1095-1131 | All branches of `ReplacementReady`: target already linked, stage present, stage missing and rebuilt, or a refusal. |
| `RecoveryTool.Tool.LinkTarget` | scripts/durable_recovery.py:1121-1127 | Create-new link of the target; losing the race is accepted only for this operation's bytes. |
| `RecoveryTool.Tool.FinishPublication` | scripts/durable_recovery.py:1129-1131 | The staging link goes, then `ReplacementPublished` is committed. |
| `RecoveryTool.Tool.Conclude` | scripts/durable_recovery.py:1133-1138 | The target's identity is verified before `Complete` is committed and again before it is reported. |
| `RecoveryTool.Tool.Fence` | scripts/durable_recovery.py:1052-1076 | Phases up to `OldCleanConfirmed` in order, resuming wherever the journal stands. |
| `RecoveryTool.Tool.FenceNew` | scripts/durable_recovery.py:1077-1082 | The new-session phases, reached only with the old session confirmed. |
| `RecoveryTool.Tool.AdvanceResolution` | scripts/durable_recovery.py:1042-1139 | The whole chain of phases ends where the machine ends, from any journal phase. |
| `RecoveryTool.Tool.CreateLink` | scripts/durable_recovery.py:117-128 | Create-new: an existing name is never replaced. |
| `Identity.IdentityKernel` | client.mbt:95-115 | Two configurations print the same durable identity if and only if protocol, policy, expiry, transport and encryption scheme, path, host, port, client id and username-or-absence agree, for arbitrary strings. |
| `Identity.PrintersAgree` | scripts/durable_recovery.py:648-659 | The tool's printer and the client's print the same text for every plain-TCP resume session. |
| `Identity.TombstonesAreFenced` | scripts/durable_recovery.py:700-746 | No session identity is a tombstone, and a tombstone determines its operation and its archive digest. |
| `Identity.SplitPrefixed` | client.mbt:93-114 | A length prefix in UTF-8 bytes splits the text in one way only, whatever separators and digits the field contains. |
| `Identity.DecimalInjective` | client.mbt:114-114 | Decimal printing of expiry, port and lengths is injective. |
| `Identity.UserInjective` | client.mbt:102-105 | Absent and present user names never print alike. |
| `DeliveryRecords.OutcomeSound` | delivery.mbt:213-326 | Over any sequence of generations, writes, losses and shutdowns: `TerminalNotSent` only if nothing was ever transmitted, `TerminalOutcomeUnknown` and `Acknowledged` only if something was; topic and payload present exactly while not terminal; DUP on every transmission but the first. |
| `DeliveryRecords.TerminalIsFinal` | delivery.mbt:256-322 | A terminal record never changes and never transmits again. |
| `DeliveryRecords.StaleGenerations` | delivery.mbt:258-270 | Teardown, PUBACK and write of a generation that is not the record's own are no-ops. |
| `DeliveryRecords.DeliveryRecord.Attach` | delivery.mbt:213-226 | The record belongs to the generation, queued with a start deadline and one attempt more; content and start mark are untouched and a coherent pending record stays one. |
| `DeliveryRecords.DeliveryRecord.RollbackInitialAttach` | delivery.mbt:228-236 | Content and start mark are untouched and a coherent pending record stays one; on a new record it undoes the attachment (`RollbackUndoes`). |
| `DeliveryRecords.DeliveryRecord.MarkStarted` | delivery.mbt:238-244 | The start mark is set, content and generation are untouched, and a coherent pending record stays one. |
| `DeliveryRecords.DeliveryRecord.MarkWritten` | delivery.mbt:246-255 | Only the acknowledgement deadline can change, and nothing of a terminal record (an acknowledgement may be faster than the write). |
| `DeliveryRecords.DeliveryRecord.Detach` | delivery.mbt:257-270 | A stale generation or a terminal record is left unchanged; otherwise the record is free of the generation and still pending, with its content and start mark, so a second teardown does nothing. |
| `DeliveryRecords.DeliveryRecord.FinishAcknowledged` | delivery.mbt:272-287 | The record is terminal; one that already was is unchanged; the start mark stays and content is gone exactly with the terminal phase. |
| `DeliveryRecords.DeliveryRecord.FinishRejected` | delivery.mbt:289-304 | The record is terminal; one that already was is unchanged; the start mark stays and content is gone exactly with the terminal phase. |
| `DeliveryRecords.DeliveryRecord.FinishTerminal` | delivery.mbt:306-326 | The record is terminal, "not sent" exactly if it was never started; one that already was terminal is unchanged; content is gone. |
| `DeliveryRecords.RollbackUndoes` | client.mbt:868-874 | A first attachment that a full queue takes back leaves the record as it was created. |
| `PacketIds.AllocatedIsFree` | delivery.mbt:379-391 | Allocation returns an id in 1..65535 free of both maps, and fails if and only if all 65535 are taken. |
| `PacketIds.NoEarlyReuse` | delivery.mbt:379-391 | Over any calls, successful or failing, with any reservations in between: an id is not handed out again until the scan of one of the calls has come by every other id at its place and issued it or found it occupied there. |
| `PacketIds.ScanSound` | delivery.mbt:383-389 | Every id skipped by the scan was taken, and the cursor ends just past the id returned, or where it began after a full turn. |
| `PacketIds.SpanMoves` | delivery.mbt:383-389 | The distance the cursor moves over any calls is the sum of what they skipped and issued; a failing call goes once round. |
| `PacketIds.SpanPasses` | delivery.mbt:383-389 | At each place within that distance the scan of one of the calls issued the id or found it occupied. |
| `DeliveryBooks.SubmitDelivery` | client.mbt:776-876 | Admission succeeds if and only if the id is new, the bound is not reached, a packet id is free, the packet encodes and the queue takes it; then exactly this record joins all collections, attached. Every refusal has its own error and restores book, session map, slots and queue depth exactly; only the packet-id cursor may have moved, and only past allocation. |
| `DeliveryBooks.TakePuback` | runtime.mbt:849-905 | PUBACK of an in-memory delivery releases slot, packet id and record together and keeps book and session coherent; before the write it is a protocol error that ends the generation. |
| `DeliveryBooks.AbortWith` | session.mbt:140-183 | The end of a generation detaches exactly the attached records, leaves the book as it is, and leaves the session empty, so coherence is kept. |
| `DeliveryBooks.ReplayDeliveries` | runtime.mbt:294-385 | A new generation serves every record of the book: each is attached and holds one slot. |
| `DeliveryBooks.AttachAndEnqueue` | client.mbt:848-876 | Ownership is taken first and undone exactly if the queue is full or closed. |
| `DeliveryBooks.Take` | client.mbt:848-858 | The record joins the three collections and takes one slot of the session. |
| `DeliveryBooks.Withdraw` | client.mbt:868-872 | The undo removes exactly what joining added, and resets the record. |
| `DeliveryBooks.JoinLeave` | client.mbt:848-874 | Joining and leaving cancel out in all three collections. |
| `DeliveryBooks.AdditionAgrees` | client.mbt:848-850 | `active`, `reserved` and `order` still agree after a record with unused identifiers joins. |
| `DeliveryBooks.RemovalAgrees` | delivery.mbt:328-341 | ... and after a record leaves; the others keep their order. |
| `DeliveryBooks.SlotsWithinBook` | client.mbt:822-826 | Attached records are active records, so slots never outnumber the book. |
| `DeliveryBooks.SameSize` | delivery.mbt:124-129 | The three collections always have one size. |
| `DeliveryBooks.CountsMatch` | client.mbt:1083-1087 | Finishing turns exactly the started, non-terminal records into "outcome unknown". |
| `DeliveryBooks.DeliveryBook.AllocatePacketId` | delivery.mbt:379-391 | The wrap-around loop computes the specified allocation, cursor included. |
| `DeliveryBooks.DeliveryBook.RemoveRecord` | delivery.mbt:329-341 | The record leaves both maps and, with the order of the others kept, the list. |
| `DeliveryBooks.DeliveryBook.Acknowledge` | delivery.mbt:344-351 | The record ends acknowledged and leaves the book, which stays coherent. |
| `DeliveryBooks.DeliveryBook.Reject` | delivery.mbt:354-361 | The record ends rejected and leaves the book, which stays coherent. |
| `DeliveryBooks.DeliveryBook.FinishAll` | delivery.mbt:364-376 | Every record gets its terminal phase and the book is empty. |
| `DeliveryBooks.DeliveryBook.FinishDeliveriesNow` | client.mbt:1079-1095 | Shutdown raises the counter by exactly the number of records that end as "outcome unknown"; each record ends unknown if it was started and not sent otherwise. |
| `DurableTheorems.WriteAhead` | session.mbt:466-603 | In every run with crashes anywhere: each packet that may be on the wire and is not acknowledged has exactly one stored row, marked started, with the same delivery id, packet id and content; and a packet that repeats an earlier one carries DUP (section 3.3.1.1 of MQTT 3.1.1). |
| `DurableTheorems.SettledHandles` | runtime.mbt:861-886 | Every handle, out of the book or still in it: acknowledged or rejected only once its row is deleted for good, and "not sent" only if nothing of it was on the wire, in this process or an earlier one; the row of an expired handle is gone or quarantined. |
| `DurableTheorems.Capacity` | durable_runtime_wbtest.mbt:579-625 | On a live session ordinary pending requests plus delivery slots never exceed `max_inflight`, also while an admission is suspended in storage; the slot counter is the attached deliveries plus one for an admission that has not yet transferred or returned its slot; no request holds a packet id that the book has reserved. |
| `DurableTheorems.BookCoherence` | client.mbt:966-1029 | In every reachable state `order` lists exactly the active deliveries once each in admission order; their packet ids are pairwise distinct and those of their rows; `reserved` holds exactly these ids, each for its own delivery, and at most one more, of the admission holding the gate; after shutdown all three are empty. |
| `DurableReservations.StepReserves` | client.mbt:967-971 | The reserved map, filled before the first suspension and released by a failed admission, an acknowledgement and shutdown, is kept exact by every step. |
| `DurableReservations.ReservedExactly` | delivery.mbt:124-129 | An exact map reserves the ids of the active deliveries, pairwise distinct, and the gate holder's, and nothing else. |
| `DurableReservations.RefuseReserves` | client.mbt:970-971 | A failed admission takes back its own reservation and no other. |
| `DurableTheorems.AdmissionFits` | durable_store.mbt:794-930 | An admission that reaches the store never meets its uniqueness constraints: it is accepted if and only if the record bound allows it. |
| `DurableTheorems.ReopenAfterAnything` | client.mbt:260-327 | After any history and a crash, opening yields exactly the surviving rows as handles in admission order, among them every unacknowledged packet ever on the wire with its packet id and content and with DUP set, all packet ids distinct and reserved; it is refused exactly when a row is blocked or the rows do not fit. |
| `DurableTheorems.StepKeeps` | delivery.mbt:82-92 | Every step of the gate holder, writer, reader, supervisor, an ordinary request, the store, a crash or an opening keeps the invariant. |
| `DurableTheorems.RunKeeps` | README.md:193-198 | The invariant behind the commit order (store before memory and network) holds in every run. |
| `DurableReopening.OpensExactlyWhen` | client.mbt:260-327 | Opening succeeds if and only if no surviving row is blocked and the rows fit `max_inflight`; the duplicate check of the rebuild loop never fires; expiry removes only rows never possibly written. |
| `DurableReopening.RebuildSucceeds` | client.mbt:286-327 | The rebuild loop makes one handle for each row, with its packet id, content, attempts and start mark, meets no duplicate, and reserves exactly their ids. |
| `DurableReopening.InOrderLists` | durable_store.mbt:731-790 | Listing by sequence yields every row once, oldest first. |
| `DurableCapacity.StepSeats` | session.mbt:186-204 | Every step of the process keeps capacity, slot count and the separation of packet ids. |
| `DurableCapacity.GiveUpSeats` | client.mbt:977-982 | A failed admission returns its provisional slot once, and only to its own living generation; attached deliveries keep theirs. |
| `DurableCapacity.AttachSession` | client.mbt:1006-1016 | Attachment turns the provisional slot into the record's own without changing the count. |
| `DurableLedger.PublishedLedger` | client.mbt:994-1029 | A committed admission becomes a handle with its row's identifiers, attached or waiting for a reconnect. |
| `DurableStore.AdmissionIsUnique` | client.mbt:967-971 | The packet id reserved before the first suspension is still unused when the row is inserted. |
| `DurableStore.CommitLedger` | durable_store.mbt:939-1000 | Each committed transaction keeps rows, handles and history in step. |
| `DurableStore.RowRemoved` | durable_store.mbt:984-995 | A row may go only if it was never possibly written or its admission is acknowledged, and then nothing on the wire loses its account. |
| `DurableStore.WriteLedger` | session.mbt:583-618 | A socket write happens only for a delivery whose start mark is committed, under a DUP flag that is clear only if nothing was written before. |
| `DurableStore.WriteOutLedger` | session.mbt:540-618 | The whole tail of `write_one` (recheck, last expiry look, write) keeps the ledger. |
| `ClosureEvidence.RecorderMeetsCorrelator` | tests/closure/dial_evidence.py:230-257 | For every run of serial dials with connects inside an open dial, a connect for each successful resolution, everything closed, a clock not set back and room in the log: the log passes all the correlator's structural checks, also under descriptor reuse. |
| `ClosureEvidence.OnlyTheWorldCanFail` | tests/closure/dial_evidence.py:226-306 | On the log of every such run the correlator answers if and only if: there was a resolution; the peers' ledgers are sound; each attempt has a numeric completion, a clock that moved between connect and close, the matching accept or none, and sound stages; lifetimes of one tuple do not overlap; and no dial has two CONNACKs. |
| `ClosureEvidence.LifeVerdict` | tests/closure/dial_evidence.py:250-294 | The part of this about one lifetime. |
| `ClosureEvidence.SameTickRefused` | tests/closure/dial_evidence.py:266-266 | A lifetime whose connect and close carry one time is refused, whatever the peers say. |
| `ClosureEvidence.OneTickRefused` | tests/closure/dial_evidence.py:266-266 | A nondecreasing clock is not enough: a concrete proper run within one clock tick is refused. |
| `ClosureEvidence.StepTimely` | tests/closure/socket_observer.c:44-51 | Each call appends its records in time order. |
| `ObserverLog.StepKeeps` | tests/closure/socket_observer.c:77-153 | Every proper call keeps each lifetime's list (one connect first, one close last, one descriptor, dial and remote) and each resolution's pair around its connects. |
| `ObserverLog.RunKeeps` | tests/closure/socket_observer.c:77-153 | The log has this shape after every proper run. |
| `ObserverLog.LifeGrows` | tests/closure/socket_observer.c:93-117 | A further record extends an open lifetime, and a close ends it. |
| `SocketObserver.Observer.RecordEvent` | tests/closure/socket_observer.c:44-51 | A record is appended exactly for a descriptor with a live lifetime, with that lifetime's dial and remote; beyond the capacity only the total grows. |
| `SocketObserver.Observer.ObservedConnect` | tests/closure/socket_observer.c:77-92 | A connect begins a new lifetime on its descriptor under the active dial; a descriptor still alive ends the observer. |
| `SocketObserver.Observer.ObservedGetSockOpt` | tests/closure/socket_observer.c:93-102 | An SO_ERROR read is recorded with its value, or -1 when the read failed. |
| `SocketObserver.Observer.ObservedClose` | tests/closure/socket_observer.c:103-117 | The close record is written before the real close and completed with its result; the descriptor is free afterwards. |
| `SocketObserver.Observer.ObservedGetAddrInfo` | tests/closure/socket_observer.c:118-139 | A resolution opens a dial, and closes it at once if it failed; a second open dial ends the observer. |
| `SocketObserver.Observer.ObservedFreeAddrInfo` | tests/closure/socket_observer.c:140-153 | Only freeing the active resolution's result ends the dial. |
| `DialEvidence.Correlate` | tests/closure/dial_evidence.py:226-306 | The correlator answers if and only if the logs are `Consistent` (all its checks but the reuse guard), with one attempt a lifetime in log order and matched plus excluded equal to all accepts, the excluded ones being those that fit no lifetime. |
| `DialEvidence.UniqueMatching` | tests/closure/dial_evidence.py:280-287 | In consistent logs a lifetime is matched if and only if its TCP attempt succeeded, it fits exactly the accept it is matched to, and no accept fits two lifetimes: no other assignment satisfies tuple and containment. |
| `DialEvidence.NoReuse` | tests/closure/dial_evidence.py:268-287 | Lifetimes of one tuple that do not overlap cannot fit the same accept. |
| `DialEvidence.GuardIdle` | tests/closure/dial_evidence.py:285-285 | The "peer reused" guard cannot fire once the interval check has passed. |
| `DialEvidence.NamedAndOthers` | tests/closure/dial_evidence.py:305-306 | The matched names and the accepts that fit nothing add up to all accepts. |
| `DialEvidence.Group` | tests/closure/dial_evidence.py:230-236 | The grouping loop lists each lifetime's and each resolution's rows in log order, keyed in order of first appearance. |
| `DialEvidence.CheckPeers` | tests/closure/dial_evidence.py:240-247 | Accepted peers are distinct and each runs from its accept to one close with a clock that does not go back; both directions. |
| `DialEvidence.CheckLives` | tests/closure/dial_evidence.py:248-296 | The loop over lifetimes passes if and only if every lifetime passes and no two of one tuple overlap. |
| `DialEvidence.Match` | tests/closure/dial_evidence.py:248-306 | Lifetimes, then logical dials: at most one CONNACK a dial, and an attempt for every successful resolution. |
| `DialEvidence.ReadBuffer` | tests/closure/dial_evidence.py:217-223 | A log is accepted if and only if nothing was lost and no index is missing. |
| `FirstPackets.ChunkingInvariance` | tests/closure/dial_evidence.py:64-100 | Every byte stream of at most 65536 bytes gives one and the same single event, or the same refusal, however it is split, and it is what the first frame alone says. |
| `FirstPackets.AnyStream` | tests/closure/dial_evidence.py:71-100 | Every stream and every split: within 65536 bytes the split does not matter; beyond, the first frame is reported for what it says exactly when it ends within the bound and the chunk that completes it does not carry the buffer past the bound; all else is refused. |
| `FirstPackets.BeyondTheBound` | tests/closure/dial_evidence.py:71-76 | Of this, the streams with a whole frame within the bound at the front. |
| `FirstPackets.TooLong` | tests/closure/dial_evidence.py:74-88 | Of this, the streams past the bound with a longer frame, a malformed header or no whole frame: always refused. |
| `FirstPackets.SplitMatters` | tests/closure/dial_evidence.py:75-75 | One stream of 65537 bytes in two splits with two results. |
| `FirstPackets.Stable` | tests/closure/dial_evidence.py:77-100 | A decision reads nothing past the first frame. |
| `FirstPackets.FirstPacket.Feed` | tests/closure/dial_evidence.py:71-100 | One delivery of bytes moves the recorder as specified; once done it reads nothing. |
| `FirstPackets.FirstPacket.Emit` | tests/closure/dial_evidence.py:87-100 | A whole frame is logged as CONNECT or CONNACK of its direction, or refused. |
| `MqttFraming.DecodeHeader` | tests/closure/dial_evidence.py:77-86 | The digit loop decodes the remaining length (section 2.2.3 of MQTT 3.1.1), or says whether more bytes can help. |
| `MqttFraming.DigitsStable` | tests/closure/dial_evidence.py:77-86 | A decided header stays decided whatever follows. |
| `MqttFraming.VarintDigits` | tests/ws_protocol_faults.py:83-93 | Decoding inverts the remaining-length encoding for every length of up to four digits. |
| `MqttFraming.EncodedHeader` | tests/ws_protocol_faults.py:83-93 | The header of every encodable packet reads back as its length and offset, with any bytes behind it. |
| `MqttFraming.WholeEncoded` | tests/ws_protocol_faults.py:83-97 | A whole packet is found exactly when all of it has arrived, and then its end is found. |
| `WebSocketPeer.Reassembly` | tests/ws_protocol_faults.py:83-103 | However a sequence of MQTT packets is cut into frames, each masked with any key of its own, with pongs anywhere in between, successive calls return exactly those packets in order, and every pong is recorded or still to come. |
| `WebSocketPeer.NextPacket` | tests/ws_protocol_faults.py:83-103 | One call finds the packet at the front of the stream wherever the frames cut it and whatever their keys, and leaves the rest intact. |
| `WebSocketPeer.OneFrame` | tests/ws_protocol_faults.py:94-103 | A data or continuation frame under any key extends the buffer, a pong only the pong list. |
| `WebSocketPeer.FrameRoundTrip` | tests/ws_protocol_faults.py:31-82 | Reading inverts masked printing under every key over the 7-, 16- and 64-bit length forms up to 65536 bytes, leaves what follows untouched, and refuses longer frames (sections 5.2 and 5.3 of RFC 6455). |
| `WebSocketPeer.UnmaskedRefused` | tests/ws_protocol_faults.py:70-73 | Every unmasked frame is refused. |
| `WebSocketPeer.MaskTwice` | tests/ws_protocol_faults.py:31-44 | Masking twice with one key is the identity. |
| `WebSocketPeer.XorTwice` | tests/ws_protocol_faults.py:31-44 | Bitwise exclusive or with one operand undoes itself. |
| `WebSocketPeer.UnpackPack` | tests/ws_protocol_faults.py:31-44 | Big-endian packing of the extended length is inverted by unpacking. |
| `WebSocketPeer.Exact` | tests/ws_protocol_faults.py:21-28 | Exactly `n` bytes, however they arrive, or the peer has closed. |
| `WebSocketPeer.Peer.ReadFrame` | tests/ws_protocol_faults.py:70-82 | Reads what the parser specifies from the connection and consumes exactly that. |
| `WebSocketPeer.Peer.Packet` | tests/ws_protocol_faults.py:83-103 | One call cuts off a buffered packet or reads frames until one is whole; non-binary frames fail. |
| `MeasurementAudit.AuditPhase` | tests/measurement_audit.py:23-94 | The audit accepts a phase log if and only if it satisfies all of `PhaseOk`; then each reported quantile is the rank-th element of the sorted population (bucket ceilings repeated by count over all workers, plus all tail samples), and it comes from the tails exactly when the rank lies beyond the histogram. |
| `MeasurementAudit.RangesPartition` | tests/measurement_audit.py:46-54 | An accepted range log is a partition: each sequence number from 1 to the last lies in exactly one range. |
| `MeasurementAudit.CountsAreNumbers` | tests/measurement_audit.py:47-56 | The outcome counters count distinct sequence numbers. |
| `MeasurementAudit.Listing` | tests/measurement_audit.py:62-78 | Buckets in ascending order followed by the sorted tails list the whole population in order: tails never sort below a bucket. |
| `MeasurementAudit.WorkersAdd` | tests/measurement_audit.py:33-74 | Merged histogram and collected tails are together exactly the population of the workers seen, in any order of workers. |
| `MeasurementAudit.WorkerAdds` | tests/measurement_audit.py:57-74 | One accepted worker adds exactly its own samples, as many as it completed. |
| `MeasurementAudit.NothingLeftOut` | tests/measurement_audit.py:75-77 | An accepted log has no sample of a worker outside the audited ones. |
| `MeasurementAudit.QuantileOf` | tests/measurement_audit.py:80-93 | The cumulative search finds the exact order statistic and says whether it is a tail. |
| `MeasurementAudit.Quantiles` | tests/measurement_audit.py:78-94 | Sorting the tails once serves all three quantiles. |
| `MeasurementAudit.AuditWorker` | tests/measurement_audit.py:33-74 | A worker passes if and only if all its conditions hold, and contributes its buckets and tails. |
| `MeasurementAudit.AuditWorkers` | tests/measurement_audit.py:33-74 | The loop over workers passes if and only if every worker passes. |
| `MeasurementAudit.CheckRanges` | tests/measurement_audit.py:46-56 | Ranges pass if and only if they are contiguous from 1 to the last with the declared counts. |
| `MeasurementAudit.CheckTails` | tests/measurement_audit.py:57-62 | Tails pass if and only if their keys are distinct, completed and within bounds, and the maximum is reached. |
| `MeasurementAudit.MergeBuckets` | tests/measurement_audit.py:63-71 | Buckets pass if and only if each is in range, ten microseconds wide, nonempty and not repeated; then the histogram grows by exactly them. |
| `MeasurementAudit.Unique` | tests/measurement_audit.py:25-29 | One row of a kind a worker, or a refusal; both directions. |
| `OrderStatistics.BucketOfRank` | tests/measurement_audit.py:85-89 | Counting up the buckets finds the rank-th sample of the histogram, or its size. |
| `OrderStatistics.SortSorts` | tests/measurement_audit.py:78-78 | Sorting yields an ascending listing of the same samples. |
| `OrderStatistics.SortedOnce` | tests/measurement_audit.py:78-93 | A population has one ascending listing, so "the rank-th element" is well defined. |
| `OrderStatistics.BagGrows` | tests/measurement_audit.py:69-71 | Adding to a bucket adds exactly that many samples at its ceiling, also across workers. |
| `OrderStatistics.ExpandedCounts` | tests/measurement_audit.py:85-88 | The expansion repeats each bucket's ceiling by its count. |
| `OrderStatistics.ExpandedSorted` | tests/measurement_audit.py:85-88 | The expansion is ascending and lies within the bucket bounds. |
| `OrderStatistics.SumOf` | tests/measurement_audit.py:91-91 | The sum of the counts is the number of samples in the histogram. |
| `LegacyPercentile.CompareWithLegacy` | tests/measurement_audit.py:120-124 | The audit's comparison of a reported percentile with the raw evidence always succeeds on checked measurements: both implementations, computed from one histogram and its tails, agree, and the quantile is exact. |
| `LegacyPercentile.ImplementationsAgree` | tests/measurement_audit.py:120-124 | For every histogram, overflow and fraction the older percentile equals the audited quantile in whole microseconds, or both say "beyond the histogram" or "no samples". |
| `LegacyPercentile.PercentileWithOverflow` | tests/benchmark.py:54-62 | The rescaled older percentile is the bucket of the exact rank over histogram and overflow together. |
| `LegacyPercentile.Percentile` | tests/soak.py:170-180 | The older percentile returns the bucket of its target rank. |
| `LegacyPercentile.TargetIsCeiling` | tests/soak.py:174-174 | The shortcut `int(x + .999999)` equals the ceiling if and only if the fractional part of `x` is zero or at least a millionth. |
| `LegacyPercentile.ExactTarget` | tests/benchmark.py:54-62 | For every fraction with denominator up to a million, and so for all fractions used, the shortcut, the ceiling and the integer rank agree. |
## Left out

- SQLite, ZIP, canonical JSON, schema, permission, symbolic-link, size and flush checks: assumed to do what they promise.
- Field-format checks of recovery requests: only path and client-id distinctness and unique decisions are kept.
- Two recovery processes at once: the source lock refuses the second without effect, and so it is a step that changes nothing.
- `finally` clean-up in a refused or failed call: merged into the refusing step; a crash may leave orphan staging files, as in the source.
- The archive's second temporary file (the copied database): the archive's content is built in one step.
- RecoveryProgress.CrashProgress: assumes a broker that accepts and nobody else acting during the whole operation, as the source's test of the crash windows does; RecoveryTheorems.Progress says what holds when others have acted.
- RecoveryProgress.PreparedProgress: says nothing of a start at which another request's archive already occupies the target path and no journal exists; such a request is refused on entry.
- RecoveryRefinement.CrashRefinement: compares results up to staging files, their random bytes, timestamps and repeated cleanups.
- DeliveryBooks.SubmitDelivery: connection, session policy, QoS, retain, expiry and payload-size checks before line 822 are not modelled; encoding and queue state are parameters.
- Deadlines, attempt budgets and back-off: their effect, ending a generation or the scope, is an input of the durable client that may occur at any time.
- DeliveryBooks.ReplayDeliveries: an exhausted attempt budget and a broker that negotiates no QoS 1 or no retain end the replay with an error, which is not modelled, and so is waiting for a place in the send queue.
- DeliveryBooks.AbortWith: results of pending ordinary requests and the transport are not modelled; the queue is its depth.
- DeliveryBooks.TakePuback: acknowledgements of ordinary QoS 1 requests under the same identifier space are not modelled, and neither is publish credit.
- The publish-credit scheduler and control packets: an enqueued delivery is written at any later time or never.
- Waiting for a place in a full send queue after attachment: the item counts as queued at once.
- Session Present and the store's known-session flag: they only decide whether a generation ends, which is an input.
- Negotiated QoS, retain and property encoding of durable admissions: a refusal there leaves only the cursor moved, as a refused allocation does.
- Payload and byte limits of the outbox: the record bound stands for all of them; a refused insertion stops the client either way.
- DurableTheorems.Capacity: the slot of DISCONNECT is outside the bound, as `client.mbt:559-563` intends, so pending requests are counted without identifier 0.
- DurableTheorems.SettledHandles: "not sent" speaks of the wire so far; a row may still be sent by a later process that opens the store.
- DurableTheorems.WriteAhead: content is delivery id, packet id, topic, payload and expiry; retain and properties travel with them and are not modelled.
- DialEvidence.Correlate: the process-id check is not modelled; intervals are compared with the earlier lifetimes' rows instead of a dictionary by tuple.
- DialEvidence.ReadBuffer: starts from parsed lines; a missing footer is a parse failure.
- ClosureEvidence.RecorderMeetsCorrelator: assumes the use that the observer states for itself, one serial client; its exits (codes 120, 125, 126) end the run.
- The observer's lock and its start-up: calls are taken one at a time.
- FirstPackets.FirstPacket.Feed: after a refusal nothing more is fed, as the source's exception ends the connection.
- WebSocketPeer.Peer.ReadFrame: failed assertions and a closed peer are error results; the upgrade handshake is not modelled.
- MeasurementAudit.AuditPhase: takes the rows of one phase, and ranks over exact rationals; rounding of floating-point `ceil` is not modelled.
- The audit of a whole trial and the trace comparison: comparisons of single fields.
- Reconnect jitter, TLS, subscriptions, events, in-memory MQTT 5 properties, command-line tools, packaging and benchmarks: not part of this model.
