# A verified model of the unseen chat

The system is a two-party encrypted chat: two browser pages agree on a key, exchange sealed frames and files through an
untrusted relay, survive crashes and reloads, and replace their key in band. This project models its protocols in Dafny
and proves what they are for, over every run of each.

Most parts come in three layers: functions that give the effect of one handler on values; classes whose methods perform it
in place and are proved to do what the function says; and theorems about every finite sequence of events. An event is one
stretch of code between two awaits, a crash, a delivery, a timer or a lock grant; a list of events is a run, and events
that are not enabled change nothing, so a theorem about all lists is a theorem about all runs.

| part | files | main results |
|---|---|---|
| secure channel | `Nonce`, `Channel`, `Session`, `SessionSafety`, `SessionReceive`, `SessionTexts`, `SessionQueue`, `SessionReach`, `SessionEnds` | no nonce is ever used twice under a key; a record that startup would resume is ahead of every counter used and of every text accepted, so that no text is accepted in two lives of a page; accepted frames are genuine, in order and accepted once, and a prefix of what was sealed when nothing was interrupted; what is sealed is what was queued, in order; after a gap the next genuine frame ahead is accepted; an ended session seals and accepts nothing more and is not resumed |
| what it rests on | `SessionRoles`, `SessionCopies` | nonces are unique in every run exactly when the two ends hold different roles; of a duplicated tab's record, exactly the copies that are not behind may be taken into use |
| rekey | `RekeyFifo`, `RekeyRefinement`, `RekeyProgress`, `RekeyRides`, `RekeyWindow`, `RekeyWitness` | on an in-order channel a rekey never ends the session and every frame opens under the key and counter in use; a ride in PRF mode that has come to rest has both sides on one new key, and there is such a ride; a frame that a side queues can end a session exactly when the side is inside its window; proved on a small two-party machine that the session machine is shown to follow |
| files | `FileChunks`, `FileReceive`, `FileReceiveSafety`, `FileIntegrity`, `FileTransfer`, `FileProgress`, `TransferSlots` | conservation of bytes and credits against any peer, and only an announced file is recorded; end-to-end equality of the file between honest peers; every run ends, and one that has not failed can still deliver; one transfer at a time within the session cap, which is about the files received |
| relay | `RelayRooms`, `RelaySafety`, `RelayAdmission`, `RelayGrace`, `RelayServer`, `RelaySyncClose` | one slot for life, meaning of the room states, frames only to the co-occupant, only resumes after pairing; who is let in, exactly; how long a room is kept for one that has gone, exactly, and who may come back; the same when sockets are closed synchronously |
| rate limits | `TokenBucket`, `IpLimiter`, `IpEviction`, `CollectorTight`, `AddressRate`, `AddressKey` | acceptance bound in every window, for a socket and for each network and action; refused calls cost nothing; the bucket evicted is the oldest; for every configuration the exact condition under which collecting idle buckets is invisible; an IPv6 address counts by its first 64 bits however it is written, exactly unless a dotted zone shifts its groups |
| file system sweep | `OpfsSweep` | a live tab keeps its directory under every interleaving, exactly when the directory name can be used for a lock; a boot and a purge do what they are for |
| markdown | `MarkdownTree`, `MarkdownScan`, `MarkdownInline`, `MarkdownSafety`, `MarkdownPieces`, `MarkdownReading`, `Markdown`, `MarkdownMessage` | every parse is the one reading of its source: a row of characters, escapes, breaks and tokens, a character standing for itself only where no token stands; nothing left out and nothing added; termination, node count and nesting bounds; text without markup is shown as it is |
| wire and build | `Bytes`, `Wire`, `Codec`, `Preload` | round trips in both directions, with the exact exceptions; the preload set is exactly the reachable one |

Some promises one might expect are false of the code or rest on a condition, and the model says exactly when they hold:

- A session directory whose name begins with a hyphen is not protected: the browser rejects a lock of that name (the
  `request()` method of the W3C Web Locks API), `holdDirLivenessLock` treats the rejection as success, and another tab's
  sweep removes the directory of a live, enabled tab (`HyphenDirectoryIsSwept`). For every other name it is protected
  (`LiveDirectorySurvives`). Names are base64url text, so one in 64 begins with a hyphen.
- A half-open room may have two occupants: a socket whose CREATE was undone because its ACK was dropped still names the room,
  and its close marks the room half open after others have created and paired it again (`HalfOpenCanBeFull`).
  Without late closes a half-open room has exactly one occupant, and a close of a full room leaves one occupant if and only
  if it is not late (`HalfOpenIsSingleWithoutLateCloses`, `CloseLeavesOneIffNotLate`).
- Collecting idle buckets is not harmless for every configuration: it never changes a decision if and only if every action
  either has a limit below one token, so that it allows nothing, or refills its whole limit in 600 seconds
  (`InvisibleExactly`). The default limits satisfy this.
- A rekey does not always survive an application frame. A side is inside its window from queueing its REKEY_INIT or
  REKEY_ACK until it switches keys (`InWindow`, which it can read off its own state). After any ride with everything
  succeeding and counters left, a frame that a side queues can lead to the end of a session if and only if that side is
  inside its window (`ASlipEndsExactlyInTheWindow`). It does once the frame is sealed before the side's own switch and arrives
  behind the other side's, under the old key; a frame sealed only after the switch ends no session
  (`SealedAfterTheSwitchIsHarmless`). Either side can get inside (`SomeRideIsInTheWindow`), and the code queues frames there,
  for instance when `dispatchOffer` answers an offer that was still in flight with `file_decline`.
- That no nonce is used twice rests on the relay having given the two ends different roles, since an end takes its role from
  the ACK and neither the key nor the spoken code depends on it: nonces are unique in every run if and only if the roles
  differ (`NoncesUniqueExactlyForTwoRoles`). That this relay hands out different roles is proved in `RelaySafety`.
- It also rests on which copy of a stored record is resumed. Duplicating a tab copies `sessionStorage`; the room's lock keeps
  a copy from running beside the tab in use. Once the lock is free, taking a copy into use can lead to a nonce used twice if
  and only if the copy is behind: it carries no rekey marker, and its owner has used a counter under its key above its
  reservation (`CopyReusesExactlyWhenBehind`).
- One IPv6 network does not always have one bucket: a zone that holds a dot makes the code count the last group for two, and
  groups behind `::` move up by one. The key is made of the first four groups of the address if and only if the groups that
  come up into them are zero (`KeyIsRightExactly`, `ADottedZoneCanSplit`).

## Assumptions

- Cryptography is ideal: a key is named by the two ephemeral pairs it was agreed from, so agreement commutes (section 6.1 of
  RFC 7748); a ciphertext opens only as a frame that was sealed under exactly that key, nonce and kind; a digest is named by
  the bytes hashed. The nonce is a direction byte and an invocation counter, the deterministic construction of section 8.2.1
  of NIST SP 800-38D.
- Both ends run this program. In `Session` they have different roles; `SessionRoles` makes the roles a parameter. The relay
  is otherwise hostile: it may deliver any wire frame, any number of times, in any order.
- A tab that has ended is closed before a copy of its record is loaded, and a closed tab's record may be loaded again.
- Passkey, wrapping and storage calls may fail at any step; they are parameters of the events. The reading of the key and the
  allocation of the counter happen in one event, as in the code; sealing and handing to the socket are one event too, and so
  are opening a frame and handling it. A frame whose counter was taken before a session ended may in the code still leave after it.
- The session machine allows more interleavings than the code (for instance it releases the inbound chain while a rekey
  frame is still being sent), so its promises hold of the code's runs as well.
- Texts are accepted at most once over all lives of a page, since a text persists the receive counter; chunks and rekey frames,
  which do not, at most once in one page's life.
- `postMessage` does not throw; a stream yields exactly the file's bytes; a transfer id is compared as bytes.
- The rides of the rekey machine start from a fresh handshake, every connection is up, and every key generation, derivation,
  wrap and storage write succeeds; a side whose counter has run out sends no more. The session machine has all these failures.
- Socket close callbacks are separate, later events; `RelaySyncClose` shows that running them inside the call that closes
  makes no difference but for PEER_DISCONNECTED messages to peers that are being closed themselves.
- What a closing tab was about to remove from the file system has been removed when its locks are released, or never is.
- Clocks are real-valued and never go back; arithmetic on tokens is exact rather than floating point.
- Characters are Unicode scalar values; the source works on UTF-16 units.

## Model

| member | source | states |
|---|---|---|
| Nonce.ParseNonce | client/src/domain/nonce.ts:34-49 | parsing fails exactly on a length other than 12, and else yields the direction byte, the little-endian counter and whether the reserved bytes are all zero |
| Nonce.ParseAfterMake | client/src/domain/nonce.ts:17-49 | a nonce made from a direction and a 64-bit counter parses back to them |
| Nonce.MakeAfterParse | client/src/domain/nonce.ts:17-49 | every nonce with zero reserved bytes and a non-zero counter is the one made from its fields |
| Nonce.MakeNonceInjective | client/src/domain/nonce.ts:17-26 | two equal nonces have equal direction and counter, so distinct counters or directions never collide |
| Nonce.ExpectedPeerDirection | client/src/domain/nonce.ts:12-15 | the direction expected of the peer is the one the peer sends with and never one's own |
| Channel.AgreeCommutes | client/src/domain/session.ts:917-983 | key agreement is the same from either side, and a key mentions exactly the two pairs it came from |
| Channel.AllocatePersistsAhead | client/src/domain/send.ts:24-33 | a counter is only handed out if the stored reservation already covers it; a failed write hands out none |
| Channel.ValidateMeaning | client/src/domain/receive.ts:30-77 | a frame opens exactly when it was sealed by the peer under this key, nonce and kind and its counter passes the strict or first-gap rule |
| Channel.SessionStore.Write | client/src/storage/session-store.ts:91-93 | a write replaces the record or, when storage throws, leaves it |
| Channel.StoredSessionMirror.SetCounterSend | client/src/storage/session-store.ts:105-127 | the mirror takes the new send counter and writes the whole record, keeping every other field |
| Channel.StoredSessionMirror.SetCounterRecv | client/src/storage/session-store.ts:105-127 | the same for the receive counter |
| Channel.StoredSessionMirror.SetRekeyInProgress | client/src/storage/session-store.ts:105-127 | the marker is set and stays in every later write of this mirror |
| Channel.ActiveContext.AllocateSendCounter | client/src/domain/session.ts:150-162 | reserving in place does what the reservation function says of context and store |
| Channel.ActiveContext.ValidateAndDecryptFrame | client/src/domain/receive.ts:30-77 | the receive check decides as the specification does and writes nothing |
| Channel.ActiveContext.NoteTextFrame | client/src/domain/receive.ts:79-103 | an accepted text frame moves the receive counter in memory and in the stored record |
| Channel.ActiveContext.SetRekeyMarker | client/src/domain/session.ts:917-932 | the marker reaches the store before the rekey goes on, or the session ends |
| Channel.ActiveContext.PersistWrappedKey | client/src/domain/session.ts:784-825 | record and mirror are replaced in one step, starting from the counters of the context |
| Channel.ActiveContext.InstallKey | client/src/domain/session.ts:985-996 | a new key starts with all three counters at zero, and the mirror, still of the old key, is untouched |
| Channel.ActiveContext.Resume | client/src/domain/session.ts:1220-1246 | a resumed context starts at the stored reservation and the stored receive counter, with one gap allowed on receipt; what that is for is `SessionSafety.ResumableRecordIsAhead` and `SessionTexts.NoTextIsAcceptedInTwoLives` |
| SessionTexts.RunHeard | client/src/domain/session.ts:1220-1246 | in every run the texts an end has accepted in all its lives are covered by its page's receive counter and by any record it could resume |
| SessionTexts.ResumableRecordCoversTexts | client/src/domain/receive.ts:95-121 | a stored record without rekey marker has a receive counter at least as large as that of every text its owner ever accepted under its key |
| SessionTexts.NoTextIsAcceptedInTwoLives | client/src/domain/session.ts:1220-1246 | a text accepted by a page is not among the texts accepted by a page of another life at that end, however often the relay delivers it |
| SessionTexts.AReloadedPageIsAnotherLife | client/src/domain/session.ts:1147-1250 | a page that is there after a moment without one is another life, and accepts no text accepted before |
| SessionQueue.SealedAndWaitingInOrder | client/src/domain/session.ts:407-434 | in every run the texts and chunks a page has sealed, followed by those that wait, are those it was given with perhaps some left out: none reordered, changed, repeated or invented |
| SessionQueue.NothingIsLostWhileItGoesOn | client/src/domain/session.ts:407-434 | while the session goes on and the connection is up at every send none is left out either |
| SessionReach.RunReaches | client/src/domain/receive.ts:43-68 | a page's receive counter never runs ahead of what was accepted under its key in all its lives |
| SessionReach.AGenuineFrameAheadIsAccepted | client/src/domain/receive.ts:43-68 | where a gap is allowed, a text or chunk the peer has sealed under the page's key ahead of everything accepted under it is accepted, however many frames before it were lost |
| SessionReach.AGapIsAllowed | client/src/domain/session.ts:1023-1037 | a reconnect and a resumed record allow one gap |
| SessionEnds.AnEndedSessionIsSilent | client/src/domain/session.ts:198-268 | once its session has ended a page takes no counter to seal a frame, accepts none and writes no record, whatever was queued or under way; after the clean-up the record is gone |
| SessionEnds.AnEndedSessionIsNotResumed | client/src/domain/session.ts:227-242 | after the clean-up the next page starts without a key |
| SessionSafety.SendKept | client/src/domain/session.ts:407-434 | running a queued send keeps the endpoint's invariant: counters used never exceed what is committed, and the store is ahead |
| SessionSafety.DeliverKept | client/src/domain/session.ts:668-730 | handling any wire frame, genuine or not, keeps the endpoint's invariant |
| SessionSafety.DeriveKept | client/src/domain/session.ts:917-983 | deriving the new key in either rekey handler keeps it |
| SessionSafety.SwitchKept | client/src/domain/session.ts:985-1017 | the switch of a committing rekey keeps it, with and without a wrapping key |
| SessionSafety.NewRecordKept | client/src/domain/session.ts:784-825 | writing the record for the new key keeps it, whether or not the write succeeds |
| SessionSafety.UpgradeKept | client/src/domain/session.ts:827-878 | finishing an upgrade to a stored session keeps it |
| SessionSafety.RunKept | client/src/domain/session.ts:164-1160 | every reachable pair of endpoints satisfies the whole invariant |
| SessionSafety.NonceNeverReused | client/src/domain/send.ts:24-33 | in every run of both ends, with crashes, reloads, resumes, failed writes and rekeys, no two sealed frames share key and nonce |
| SessionRoles.NoncesUniqueExactlyForTwoRoles | client/src/domain/session.ts:520-535 | with the roles as parameter: no run of the two ends uses a nonce twice under a key if and only if the two roles differ |
| SessionRoles.RunAsRun | client/src/domain/session.ts:1043-1055 | with different roles the two ends are the session machine, event by event |
| SessionCopies.CopiesNeverReuse | client/src/domain/session.ts:1156-1169 | however tabs are duplicated and loaded under the room's lock, no nonce is used twice as long as no copy taken into use is behind |
| SessionCopies.FreshCopyIsNotBehind | client/src/storage/session-store.ts:91-93 | a record is not behind when it is copied |
| SessionCopies.CopyReusesExactlyWhenBehind | client/src/domain/duplicate-tab.ts:5-19 | with the room's lock free, taking a copy into use can lead to a nonce used twice if and only if the copy carries no rekey marker and its owner has used a counter under its key above its reservation |
| SessionSafety.ResumableRecordIsAhead | client/src/domain/session.ts:985-1012 | a stored record without rekey marker has a send counter at least as large as every counter its owner used under its key, also between the awaits of a rekey |
| SessionReceive.AcceptedFramesAreGenuine | client/src/domain/receive.ts:43-68 | against any relay, frames accepted in one page's life were sealed by the peer, none is accepted twice, and under one key they come in the order of sealing |
| SessionReceive.AcceptedIsPrefix | client/src/domain/session.ts:1023-1037 | without reload or reconnect the accepted frames under each key are exactly the first ones the peer sealed |
| RekeyFifo.PlayKept | client/src/domain/session.ts:889-1017 | every move of two pages on an in-order channel keeps them in one of the seven phases of a rekey |
| RekeyRefinement.GoKept | client/src/domain/session.ts:889-1017 | a step of the session machine on an in-order channel is the same move of the two-party machine |
| RekeyRefinement.RideIsRun | client/src/domain/session.ts:889-1017 | every such ride is a run of the session machine, so its other promises hold of it too |
| RekeyRefinement.RekeyNeverFails | client/src/domain/session.ts:889-1017 | with no application frame queued inside the rekey window, neither side ever ends the session, the next frame always opens under the receiver's key and counter, and settled sides share one key |
| RekeyProgress.RestingRideIsRekeyed | client/src/domain/session.ts:889-1017 | every ride with both pages in PRF mode, counters left and no move but queueing changing anything any more has both sides on the same rekeyed key: nothing gets stuck on the way |
| RekeyProgress.RideKeepsCues | client/src/domain/session.ts:880-915 | until the peer's upgrade is known its announcement is on its way; once both are upgraded the initiator has started or will look; a started rekey has a key pair coming, pending or committed |
| RekeyWitness.SomeRideRekeys | client/src/domain/session.ts:889-1017 | there is a ride that ends at rest with both sides on one rekeyed key |
| RekeyWindow.MisfitEnds | client/src/domain/session.ts:668-683 | a delivered frame sealed under another key than the receiver's ends the receiver's session |
| RekeyWindow.ASlipEndsExactlyInTheWindow | client/src/domain/session.ts:407-434 | after every ride with counters left, either side, any text or chunk: some continuation after the side queues the frame ends a session if and only if the side was between queueing its rekey frame and its switch; inside the window the peer's session ends with nothing more queued, in a run of the session machine |
| RekeyWindow.SealedAfterTheSwitchIsHarmless | client/src/domain/session.ts:985-1017 | a frame queued inside the window but sealed only after its own side's switch ends no session, whatever follows |
| RekeyWindow.SlipIsRun | client/src/domain/session.ts:407-434 | a ride, the frame queued after it and any continuation are a run of the session machine |
| RekeyWitness.SomeRideIsInTheWindow | client/src/domain/session.ts:889-983 | either side gets inside its window, with counters left |
| RekeyWitness.ASlipEndsTheSession | client/src/domain/session.ts:407-434 | for either side and any text or chunk there is a ride in which that one frame ends the other side's session |
| FileChunks.ChunksOfFile | client/src/domain/file-receive.ts:127-133 | every piece is full but a non-empty last one, there are ceil(size / 8692), and together they are the file |
| FileChunks.ChunkPrefix | client/src/domain/file-receive.ts:127-133 | the first k pieces are the first min(8692 k, size) bytes |
| FileChunks.ChunksSplit | client/src/workers/file-send-worker.ts:75-96 | cutting what has arrived and going on with the rest cuts the whole |
| FileChunks.SendWorker.ConsumeIntoChunks | client/src/workers/file-send-worker.ts:75-96 | one read yields exactly the full pieces of the tail and the input, and keeps the rest |
| FileChunks.SendWorker.RunPipeline | client/src/workers/file-send-worker.ts:98-145 | the emitted pieces depend on the file's bytes alone, not on how the stream was split |
| FileChunks.ChunkRoundTrip | client/src/domain/file-receive.ts:113-125 | the 12-byte header and data parse back to transfer id, sequence number and data |
| FileReceive.FileReceiver.PostChunkToWorker | client/src/domain/file-receive.ts:500-512 | a posted chunk costs one credit |
| FileReceive.FileReceiver.DispatchChunk | client/src/domain/file-receive.ts:531-582 | a chunk is posted, queued or aborts the transfer as specified for every state and chunk |
| FileReceive.FileReceiver.HandleWorkerWritten | client/src/domain/file-receive.ts:318-331 | a report returns a credit, which the oldest queued chunk takes at once |
| FileReceive.FileReceiver.DispatchComplete | client/src/domain/file-receive.ts:584-597 | completion is refused while bytes are missing and else may finalize |
| FileReceive.FileReceiver.FinalizeIfDue | client/src/domain/file-receive.ts:305-316 | finalize is posted when everything is written and the digest is known, and only then |
| FileReceiveSafety.FeedKept | client/src/domain/file-receive.ts:305-597 | every input, from any peer, keeps the receiver's invariant; what is recorded is `FileIntegrity.RecordedFileWasAnnounced` |
| FileReceiveSafety.ReceivingIsConserved | client/src/domain/file-receive.ts:305-581 | written, in-flight and queued bytes add up to min(8692 next, size); credits and outstanding chunks are four; only an exhausted page queues, at most 32; chunks reach the worker in order; finalize is posted once at most, after every byte |
| FileIntegrity.RecordedFileWasAnnounced | client/src/domain/file-receive.ts:333-362 | for all inputs, from any peer: a recorded file has the size offered, and a completion for this transfer that announced its digest has arrived |
| FileIntegrity.FinishedIsRecordedIffAnnounced | client/src/domain/file-receive.ts:333-362 | when the worker reports the finished file it is recorded if and only if the last digest announced is its own; otherwise the transfer ends with an integrity failure and nothing recorded |
| FileTransfer.RunKept | client/src/domain/file-send.ts:229-260 | every interleaving of two workers, two pages and an in-order channel keeps the pipeline's invariant |
| FileTransfer.TransferDeliversTheFile | client/src/workers/file-receive-worker.ts:56-112 | a recorded attachment equals the sender's file; sequence, length, early-completion and digest aborts never fire; at most four chunks are ahead of the wire |
| FileTransfer.QuietTransferIsDone | client/src/domain/file-send.ts:215-269 | a transfer in which nothing more can happen, and which has not aborted, has delivered the file |
| FileProgress.EveryTransferEnds | client/src/domain/file-send.ts:215-269 | in every interleaving, worker failures included, at most 8 per chunk, one per part of the stream and 19 more events change anything |
| FileProgress.CanAlwaysFinish | client/src/domain/file-send.ts:215-269 | from every state in which nothing has failed some continuation comes to rest with the file delivered |
| FileTransfer.QueueFullExactly | client/src/domain/file-receive.ts:553-581 | the receiver's queue overflows exactly when a chunk is delivered while 36 others have arrived whose write reports the page has not taken |
| TransferSlots.OneTransferWithinTheCap | client/src/domain/file-receive.ts:239-303 | over all offers, accepts, cancels, timeouts and completions at most one slot is taken, and the sizes of the files received since the session began and of a pending one add up to 500 MiB at most |
| TransferSlots.CounterIsTheSum | client/src/domain/file-receive.ts:333-362 | the counter of received bytes is the sum of the sizes of the files received since the session began |
| TransferSlots.OfferTakesTheSlotExactly | client/src/domain/file-receive.ts:239-303 | an offer takes the slot if and only if both slots are free, the size is from 1 byte to 100 MiB, the name is usable, files are supported and ready, the id is new and the files received and this one come to 500 MiB at most; it is told that it is too large exactly when it is |
| TransferSlots.StartTakesTheSlotExactly | client/src/domain/file-send.ts:430-464 | a transfer of one's own starts if and only if both slots are free, the size is from 1 byte to 100 MiB and the name usable |
| TransferSlots.AcceptIsOfItsOffer | client/src/domain/file-receive.ts:418-452 | an accept whose message was sent starts the receiving if and only if the very offer it began on is still in the slot |
| TransferSlots.OfferStaysBetween | client/src/domain/file-receive.ts:418-452 | an offer that is in the slot at two moments has been there all the time in between, so that comparing identities after an await is enough |
| TransferSlots.FileState.BeginTransfer | client/src/domain/file-send.ts:430-464 | an outgoing transfer starts only when both slots are free and the size is allowed |
| TransferSlots.FileState.DispatchOffer | client/src/domain/file-receive.ts:239-303 | the verdict on an offer, and the slot taken exactly on acceptance |
| TransferSlots.FileState.FinishAccept | client/src/domain/file-receive.ts:418-452 | only the very offer that was accepted starts receiving |
| TransferSlots.FileState.RecordDone | client/src/domain/file-receive.ts:333-362 | a matching file is counted and recorded, any other only frees the slot; that the count is the sum of the files received is `TransferSlots.CounterIsTheSum` |
| RelayServer.Server.AddToRoom | server/src/room/registry.ts:22-36 | the free slot is taken, initiator first; a full room is left alone |
| RelayServer.Server.RemoveFromRoom | server/src/room/registry.ts:84-98 | the slot is vacated; an empty room is deleted, any other becomes half open from now on, which `RelayGrace.GraceIsExact` is about |
| RelayServer.Server.CreateRoom | server/src/wire/handlers.ts:78-100 | creating in place does what the create handler's function says of rooms, sockets and messages |
| RelayServer.Server.JoinOrResume | server/src/wire/handlers.ts:102-156 | the same for joining and resuming, with every refusal |
| RelayServer.Server.HandleHello | server/src/wire/handlers.ts:158-178 | the same for the whole HELLO |
| RelayServer.Server.HandleForward | server/src/wire/handlers.ts:180-244 | the same for forwarding, with every refusal and failure |
| RelayServer.Server.HandleClose | server/src/wire/handlers.ts:273-291 | the same for a close |
| RelayServer.Server.Sweep | server/src/room/cleanup.ts:18-44 | the loop deletes exactly the expired rooms and its two counters add up to the rooms deleted |
| RelaySafety.SweepIsExact | server/src/room/cleanup.ts:18-44 | a room survives a sweep if and only if it has not expired, and then unchanged |
| RelaySafety.RunKept | server/src/wire/handlers.ts:246-291 | every reachable relay state satisfies the whole invariant |
| RelaySafety.OneSlotForLife | server/src/room/registry.ts:22-98 | two slots a socket is ever seen in, however far apart, are one slot of one registration |
| RelaySafety.RoomsMeanWhatTheySay | server/src/room/registry.ts:70-98 | every room has an occupant, a paired room two different ones, a waiting room only its initiator; every occupant is open, named this room and has this slot's role |
| RelaySafety.AcksAgree | server/src/wire/handlers.ts:97-138 | no socket is ever told two roles |
| RelaySafety.PairedRoomsAdmitOnlyResumes | server/src/wire/handlers.ts:113-134 | from a room's pairing on, every slot granted in that registration goes to a resume, and the room never waits again |
| RelaySafety.OncePairedOnlyResume | server/src/wire/handlers.ts:113-134 | the same seen from a run in which the room was paired; the role handed out is that of the vacated slot |
| RelaySafety.FramesReachOnlyThePeer | server/src/wire/handlers.ts:180-244 | every frame ever sent was some socket's frame, unchanged, to its one co-occupant at that moment |
| RelaySafety.ForwardIsExact | server/src/wire/handlers.ts:186-244 | in a shared room a frame is relayed if and only if it is well sized, within its limits and taken by the peer's socket |
| RelaySafety.HalfOpenCanBeFull | server/src/room/registry.ts:84-98 | there is a run in which a half-open room has two occupants |
| RelaySafety.HalfOpenIsSingleWithoutLateCloses | server/src/room/registry.ts:84-98 | without late closes every half-open room has exactly one occupant |
| RelaySafety.CloseLeavesOneIffNotLate | server/src/wire/handlers.ts:273-291 | a close of a full room leaves one occupant if and only if the socket held a slot in it |
| RelayAdmission.AdmittedExactly | server/src/wire/handlers.ts:78-178 | in every run a HELLO is acknowledged if and only if the socket has not been let in before, version and rate limit are met, the room is absent for a create, waiting for a join, short of an occupant for a resume, and the socket takes the message; a creator is the initiator, a first joiner the joiner, and the room is then as their ACK says |
| RelayAdmission.AnUntakenAckLeavesNoRoom | server/src/wire/handlers.ts:97-151 | a HELLO entitled to a room whose ACK the socket does not take leaves that room unregistered and every other as it was |
| RelayAdmission.OneHandshakeForLife | server/src/wire/handlers.ts:222-228 | of all handshake frames of a socket at most one is ever relayed |
| RelayGrace.GraceIsExact | server/src/room/registry.ts:84-98 | when an occupant of a shared room closes at t and the room is then left alone, it is kept, the slot free and the other occupant in place, exactly until a sweep that lists it comes its grace period or more after t |
| RelayGrace.ACloseIsTold | server/src/wire/handlers.ts:273-291 | the other occupant, and nobody else, is told at once that its peer is gone |
| RelayGrace.ResumeTakesTheSlotBack | server/src/wire/handlers.ts:102-156 | until then a resume on a fresh socket is acknowledged with the vacated role and the other occupant told |
| RelayGrace.GraceEnds | server/src/room/cleanup.ts:18-44 | such a sweep deletes the room and tells the other occupant that its peer has left |
| RelayGrace.WaitIsExact | server/src/room/cleanup.ts:18-44 | a created room left alone is kept exactly until a sweep that lists it comes more than five minutes after its creation |
| RelayGrace.PairedOutlivesSweeps | server/src/room/cleanup.ts:18-44 | no sweep, however late, changes a paired room |
| RelaySyncClose.StepIsStepThenCloses | server/src/wire/handlers.ts:138-151 | a step whose closes run at once ends, but for PEER_DISCONNECTED messages, as the step followed by the close events it causes |
| RelaySyncClose.SyncRunIsRun | server/src/room/send.ts:39-42 | every run with synchronous closes is such a run of the relay: same rooms, sockets, grants and other messages |
| RelaySyncClose.SyncRunKept | server/src/room/cleanup.ts:18-44 | the whole relay invariant holds after every run with synchronous closes |
| TokenBucket.RelayBucket.ConsumeRelayToken | server/src/ratelimit/relay-bucket.ts:23-37 | one call refills, decides and spends as specified |
| TokenBucket.StaysWithin | server/src/ratelimit/relay-bucket.ts:23-37 | over any calls tokens stay between 0 and the limit |
| TokenBucket.EveryCallIsPaidFor | server/src/ratelimit/relay-bucket.ts:23-37 | accepted calls plus tokens left never exceed tokens at the start plus tokens refilled |
| TokenBucket.WindowBound | server/src/ratelimit/relay-bucket.ts:16-37 | after any earlier calls, a window of time accepts at most limit + refillPerSec times its length |
| TokenBucket.BurstIsGranted | server/src/ratelimit/relay-bucket.ts:16-37 | a burst on a full bucket is granted up to the limit |
| TokenBucket.RefusedCallsCostNothing | server/src/ratelimit/relay-bucket.ts:23-37 | leaving the refused calls out of a list of calls changes no later decision |
| IpLimiter.AddressLimiter.Check | server/src/ratelimit/ip-limiter.ts:66-91 | under the bucket key of the peer's address one check changes one action's table as specified, evicting the oldest key only when a new one meets a full table |
| IpLimiter.AddressLimiter.CollectTable | server/src/ratelimit/ip-limiter.ts:93-102 | the loop leaves exactly the entries that are not idle, in their order |
| IpLimiter.AddressLimiter.Gc | server/src/ratelimit/ip-limiter.ts:93-102 | collection does this to every action's table |
| IpLimiter.TablesStayCapped | server/src/ratelimit/ip-limiter.ts:72-77 | over any calls no table holds more than 50000 buckets |
| IpEviction.TheOldestIsEvicted | server/src/ratelimit/ip-limiter.ts:66-91 | after any calls a new key in a full table gives up the one bucket that has been there longest and keeps the others; any other check gives up none |
| IpLimiter.CollectingChangesNoDecision | server/src/ratelimit/ip-limiter.ts:66-102 | on a monotone clock and without eviction, a check of an action that refills while idle, or allows nothing at all, decides as in a limiter that never forgets |
| IpLimiter.DefaultsRefillWhileIdle | server/src/ratelimit/ip-limiter.ts:12-19 | every default limit refills while idle |
| CollectorTight.InvisibleExactly | server/src/ratelimit/ip-limiter.ts:66-102 | for every configuration collection never changes a decision if and only if every action's limit is below one or at most 600 refillPerSec |
| CollectorTight.CollectingCanChangeADecision | server/src/ratelimit/ip-limiter.ts:66-102 | for any action with a limit of one or more that 600 seconds do not refill there are calls one of which the two limiters decide differently |
| AddressRate.AllowedIsAccepted | server/src/ratelimit/ip-limiter.ts:66-102 | whatever other addresses do and whenever idle buckets are collected, an address is allowed exactly what a bucket of its own would accept |
| AddressRate.AddressWindowBound | server/src/ratelimit/ip-limiter.ts:66-102 | of an address's calls for one action a window of time has at most limit + refillPerSec times its length allowed |
| AddressKey.CanonicalIsValue | server/src/ratelimit/ip-limiter.ts:38-41 | lower-cased groups without leading zeros are equal exactly when their numbers are |
| AddressRate.NetworkWindowBound | server/src/ratelimit/ip-limiter.ts:45-91 | the same bound for a network: all addresses of one /64 together, however written, are held to one limit |
| AddressKey.KeyIsRightExactly | server/src/ratelimit/ip-limiter.ts:23-41 | for every text of an IPv6 address, with or without a zone, the key's groups are the canonical first four groups of the address if and only if no dotted zone moves a non-zero group up into them |
| AddressKey.KeyIsFirstBits | server/src/ratelimit/ip-limiter.ts:26-43 | two such texts get the same key if and only if the addresses agree in their first 64 bits |
| AddressKey.BucketKeyExactly | server/src/ratelimit/ip-limiter.ts:38-45 | joined with colons, and beside the keys that are plain texts: two peers share a bucket if and only if both are IPv6 addresses in one /64, or neither is and the texts are equal |
| AddressKey.ADottedZoneCanSplit | server/src/ratelimit/ip-limiter.ts:23-36 | there is an address that gets another key when written with a zone that holds a dot |
| OpfsSweep.QueryLiveLockNames | client/src/storage/opfs-transfers.ts:55-64 | the set is exactly the names held or pending |
| OpfsSweep.SweepRoot | client/src/storage/opfs-transfers.ts:75-84 | of the listed directories exactly the opaque ones that are neither one's own nor live go |
| OpfsSweep.SweepStepsRemoveTheDoomed | client/src/storage/opfs-transfers.ts:75-84 | the sweep's steps, run without interference, are that loop |
| OpfsSweep.RunKept | client/src/storage/opfs-transfers.ts:35-131 | in every interleaving one task at most is inside the exclusive lock, and a sweep in progress knows every directory whose boot has had the lock |
| OpfsSweep.OnlyAPurgeRemoves | client/src/storage/opfs-transfers.ts:66-131 | no step of any sweep removes the directory of an enabled live tab |
| OpfsSweep.LiveDirectorySurvives | client/src/storage/opfs-transfers.ts:35-131 | from the step at which a boot sweep returns enabled, a directory with a lockable name exists while its tab lives, in every interleaving, unless purged by name |
| OpfsSweep.ABootGetsThrough | client/src/storage/opfs-transfers.ts:35-131 | from every state in which the exclusive lock is free a tab that opens and boots for a lockable name, other than the sweep's own, can get through: enabled, its directory there, and of the listed session directories exactly those gone that no tab holds or wants |
| OpfsSweep.APurgeGetsThrough | client/src/storage/opfs-transfers.ts:86-131 | and a purge can: its directory gone, every other where it was |
| OpfsSweep.HyphenDirectoryIsSwept | client/src/storage/opfs-transfers.ts:35-53 | for every directory name that begins with a hyphen there is a run in which another tab's sweep removes it while its tab lives, enabled |
| MarkdownScan.UnescapedIsFirst | client/src/domain/markdown-impl.ts:341-355 | the scan finds the first target that no odd run of backslashes precedes, and none only if there is none |
| MarkdownScan.CodeCloseIsFirst | client/src/domain/markdown-impl.ts:205-222 | a code span closes at the first run of exactly as many backticks, and at none only if there is none |
| MarkdownInline.IndexOf | client/src/domain/markdown-impl.ts:207 | the first place at or after a position, or -1 if there is none |
| MarkdownInline.FindUnescaped | client/src/domain/markdown-impl.ts:341-355 | the loop computes that scan |
| MarkdownInline.Cursor.Emit | client/src/domain/markdown-impl.ts:188-196 | adjacent text merges and costs no token, any other node costs one |
| MarkdownInline.Cursor.TryConsumeCode | client/src/domain/markdown-impl.ts:198-223 | reads the code span that stands at the cursor, or nothing |
| MarkdownInline.Cursor.TryConsumeEmphasis | client/src/domain/markdown-impl.ts:225-270 | reads the strong or emphasis that stands at the cursor, parsed one level deeper, or nothing |
| MarkdownInline.Cursor.TryConsumeLink | client/src/domain/markdown-impl.ts:322-339 | reads the link that stands at the cursor, or nothing |
| MarkdownInline.Cursor.TryConsumeAutolink | client/src/domain/markdown-impl.ts:277-296 | reads the bare link that stands at the cursor, or nothing |
| MarkdownInline.Cursor.ParseInline | client/src/domain/markdown-impl.ts:119-170 | the recursive descent ends and computes nodes, position, counter and flag of the parse from the cursor, which is the reading of `MarkdownPieces.ParseIsReading` |
| MarkdownSafety.CodeFoundExactly | client/src/domain/markdown-impl.ts:198-223 | a code span is read exactly when the opening run of backticks meets a run of the same length |
| MarkdownSafety.CodeShape | client/src/domain/markdown-impl.ts:198-223 | what was read is the value between two equal runs, the second being the first of its length |
| MarkdownSafety.LinkFoundExactly | client/src/domain/markdown-impl.ts:322-339 | a link is read exactly when an unescaped bracket, a parenthesis at once and an unescaped parenthesis follow and neither part is empty |
| MarkdownSafety.LinkShape | client/src/domain/markdown-impl.ts:322-339 | what was read is the text in brackets and the padded address in parentheses |
| MarkdownSafety.AutolinkIsVerbatim | client/src/domain/markdown-impl.ts:277-296 | what a bare link reads is what it links to and shows |
| MarkdownSafety.EmphasisSound | client/src/domain/markdown-impl.ts:225-270 | a span read moves the cursor on, counts its nested nodes, nests within what is left and shows only a part of its source |
| MarkdownSafety.EmphasisIsMarked | client/src/domain/markdown-impl.ts:225-270 | it stands between two equal markers, doubled ones for strong and single ones for emphasis, and shows only a part of what is between them |
| MarkdownSafety.EmitAdds | client/src/domain/markdown-impl.ts:188-196 | emitting adds the node's size, height and text to the list's |
| MarkdownSafety.InlineSound | client/src/domain/markdown-impl.ts:119-170 | a parse reads to the end unless it overflows; the counter is the number of nodes including nested ones, at most 501 + 2 per level left; nesting stays within the depth left; the nodes show a subsequence of what was read |
| MarkdownPieces.EmphasisCloseIsFirst | client/src/domain/markdown-impl.ts:242-269 | a span closes at the first markers that neither a space nor a line break precedes, and at none only if there are none |
| MarkdownPieces.AutolinkExactly | client/src/domain/markdown-impl.ts:277-320 | a bare link is read exactly where one stands, and then all of it |
| MarkdownPieces.ParseIsReading | client/src/domain/markdown-impl.ts:119-186 | every parse is a reading: what it has read is a row of pieces, each a character for itself where no token stands, an escaped character, a line break or a token; its nodes are theirs with adjacent texts merged; it goes to the end unless the token limit is met; it is newly flagged exactly when it stops early, a span is cut short or a marker stands where spans may nest no deeper |
| MarkdownReading.OneReading | client/src/domain/markdown-impl.ts:119-186 | a source has no two readings |
| MarkdownReading.TokenFoundExactly | client/src/domain/markdown-impl.ts:172-186 | a token is read exactly where one of the four kinds stands |
| MarkdownReading.UnmarkedIsShownAsItIs | client/src/domain/markdown-impl.ts:119-170 | a source in which no token, escape or line break stands is shown as the one text it is, for one token and unflagged |
| MarkdownReading.PlainIsShownAsItIs | client/src/domain/markdown-impl.ts:119-170 | in particular one without backslash, newline, backtick, star, underscore, opening bracket and bare link |
| MarkdownReading.EscapedIsShown | client/src/domain/markdown-impl.ts:141-148 | any text is shown as it is when every character is escaped |
| Markdown.SplitIsExact | client/src/domain/markdown-impl.ts:69-78 | splitting cuts at every newline and nowhere else: no line holds one, and joining the lines gives the text back |
| Markdown.FindFenceClose | client/src/domain/markdown-impl.ts:103-110 | the first closing line, or -1 |
| Markdown.SplitBlocks | client/src/domain/markdown-impl.ts:69-101 | the loop computes the segments as specified |
| Markdown.GroupsCoverTheLines | client/src/domain/markdown-impl.ts:69-101 | the groups of lines are all lines, in order |
| Markdown.SegmentsAreGroups | client/src/domain/markdown-impl.ts:69-101 | segments and groups correspond: a closed fence is a code block of the lines between, everything else is inline text |
| Markdown.ParseMarkdownString | client/src/domain/markdown-impl.ts:32-63 | the loop computes the parse of the segments under one shared counter, with its fallback flag |
| Markdown.EveryMessageIsBounded | client/src/domain/markdown-impl.ts:32-63 | every message's tree has at most 507 nodes nested at most 3 deep and shows a subsequence of the segments' text |
| Markdown.NoFallbackReadsAll | client/src/domain/markdown-impl.ts:40-62 | without the fallback flag every segment was parsed, and to its end |
| MarkdownMessage.EveryMessageIsItsReadings | client/src/domain/markdown-impl.ts:32-63 | every message's tree is the code blocks and the readings of its segments, in order and up to the token limit, and the fallback flag is set exactly when something is left out, a span is cut short or a marker stands where spans may nest no deeper |
| MarkdownMessage.PlainMessageIsShownAsItIs | client/src/domain/markdown-impl.ts:32-63 | a line that is not rewritten and in which nothing is marked is shown as the text it is, unflagged |
| Bytes.ReadAfterWrite | shared/src/wire/codec.ts:131-160 | a little-endian field that fits reads back as written |
| Bytes.WriteAfterRead | shared/src/wire/codec.ts:212-239 | writing what was read restores the bytes |
| Wire.ByteToErrorCode | shared/src/wire/error-codes.ts:30-64 | a byte stands for a code if and only if it is that code's byte |
| Wire.ByteToKind | shared/src/wire/file-frame.ts:3-28 | the same for relay kinds |
| Wire.ByteToIntent | shared/src/wire/intent.ts:3-21 | the same for intents |
| Wire.ByteToRole | shared/src/wire/role.ts:3-18 | the same for roles |
| Codec.DecodeAfterEncode | shared/src/wire/codec.ts:71-291 | every frame decodes to itself at the end it is meant for, a HELLO to one of this version, within the wire limit |
| Codec.EncodeAfterDecodeServer | shared/src/wire/codec.ts:225-291 | an accepted server buffer re-encodes if and only if it is within the wire limit, and then to the same bytes |
| Codec.EncodeAfterDecodeClient | shared/src/wire/codec.ts:172-265 | an accepted client buffer re-encodes to the same bytes if and only if it is within the limit and not a HELLO of another version |
| Codec.DecodeServerInjective | shared/src/wire/codec.ts:267-291 | no two buffers within the limit mean the same server frame |
| Codec.SetBytes | shared/src/wire/codec.ts:83-132 | copying into a buffer changes that stretch and nothing else |
| Codec.EncodeRelay | shared/src/wire/codec.ts:106-134 | the filled buffer is the frame's bytes; refused exactly when the frame is not encodable |
| Codec.EncodeHello | shared/src/wire/codec.ts:71-89 | the same for HELLO |
| Codec.EncodePeerDisconnected | shared/src/wire/codec.ts:153-162 | the same for PEER_DISCONNECTED |
| Preload.CollectStaticImportChunks | client/build.ts:215-248 | the worklist ends with exactly the chunks a chain of static imports through chunks reaches from the entry, cycles included |
| Preload.TakeUpAll | client/build.ts:233-245 | taking up one file's imports keeps the worklist's invariant and its measure |

## Left out

- The session handlers of `client/src/domain/session.ts` are modelled as step functions of a state machine over both ends; only
  the context they update (`ActiveContext`), its mirror and the store are classes.
- The send pipeline of `client/src/domain/file-send.ts` and the receive worker are steps of the transfer machine; of the workers only
  the chunk cutter is a class.
- Codec.EncodeHello: the graceMs and version arguments that are not integers, which the source rejects or never passes, have no
  counterpart; the one- and two-byte encoders and `encodeHandshake` have no buffer-filling method, only the function `Encode`.
- AES-GCM, AES-KW, HKDF, X25519, SHA-256 and WebAuthn: ideal functions or outcomes chosen by the events.
- Splitting the text of an address at its colons, and telling IPv4 from IPv6: the groups are given. A zone that itself holds
  a colon, which the code would split too.
- Parsing of stored records and envelopes (JSON), Unicode normalisation, the heading rewrite and file-name cleaning: given functions
  or outcomes; only the rules stated on plain strings are modelled.
- Cap eviction as part of the rate bound: evicting the oldest bucket forgets its state; only the size bound is stated.
- That exactly one outcome event is shown per transfer: continuations after an await do not re-check ownership, so the code does not
  decide it. A transfer may also end because the receiver's queue is full or its worker fails.
- Latency of timers and deadlines: they are events that may happen at any time.
- Connection admission counting, hello deadlines, metrics, static serving, headers, logging and configuration parsing.
- User interface, routing, translation, formatting and notifications.
