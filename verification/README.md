# Verified model of the relay's stateful protocols

This project models, in Dafny 4.11, the parts of the chat relay and its client whose guarantees rest on state that many
workers change at once, and proves what they keep over every run.

The code is TypeScript: an operation runs without interruption from one `await` to the next, and everything else may
happen at an `await`. Each protocol is therefore modelled twice. Its step functions and a relation `Next` over events cut
every operation at its awaits; theorems about `Run` hold for every interleaving of every number of workers. Beside them,
classes with the program's own fields, loops and retry loops perform the same steps in place, and their contracts equate the
new state with those functions, or, for the compare-and-swap loops, with the functions applied after whatever other
writers committed in between.

| component | modules |
|---|---|
| file transfer ledger and retention | `FileLedger`, `FileLedgerInvariant`, `FileLedgerSystem`, `FileLedgerRuns`, `FileLedgerService` |
| offline mailbox | `Mailbox` (array store and its class), `MailboxSystem` (database form, racing workers), `Delivery` (the replay loop among them) |
| room ownership | `RoomLock`, `RoomOwnership`, `RoomAdmission`, `RoomRuns`, `RoomTables` |
| mailbox pumps | `MailboxPump` |
| token buckets | `RateLimiter` |
| binary codecs | `Bytes`, `PortableContext`, `PortableManifest` |
| client stores | `SessionStore`, `MessageStore` |
| device lifecycle and one-time proofs | `DeviceTrust` (process-local), `DurableDevices`, `DurableDeviceRuns`, `DurableDeviceService` |

`Common` holds the shared datatypes. `dfy` files verify together with `dafny verify dfyconfig.toml`.

Conventions. Time is an integer that never goes backwards, read once per uninterrupted section. Random identifiers are
parameters that are required to be unused. Hashes, signatures, UTF-8, Unicode normalisation and the regular expressions
that only classify text are function parameters (the `Host` and `Crypto` datatypes). Thrown errors are `Err` results, or
a worker that is dropped. Token arithmetic is over the reals.

Where a promise turned out to hold only under a condition, the condition is part of the theorem and a second lemma shows
that it cannot be dropped: `RateLimiter.AgreesExactlyWithRefill` (refill 0), `PortableManifest.EncodingRoundTrip` (names
whose sanitised form is not stable), `MailboxSystem.OrderIsExact` (letters stored ahead of a row under a live lease),
`DurableDeviceRuns.LateRecordAcceptsTwice` (a replay record that lands after its own expiry, although the proofs are called
one-time), `FileLedgerRuns.SentWritesCanLandLate` (a write is checked for expiry before and after its database update, which
therefore can land late, but then is never reported as a success) and `SessionStore.PatchTakesEffect` (the patch type of the
conversation index allows clearing nickname, dismissal, archiving and pending expiry, and the code clears none of them where
there is a value).

## Model

| member | source | states |
|---|---|---|
| `Bytes.BigEndianRoundTrip` | service/src/attachments/portableManifest.ts:4-7 | a number in range is read back from its big-endian bytes |
| `Bytes.FromBigEndianRoundTrip` | service/src/attachments/portableManifest.ts:4-7 | and bytes are written back from the number they stand for |
| `Bytes.Integer` | service/src/attachments/portableContext.ts:28-34 | the byte-filling loop rejects exactly the numbers out of range and otherwise produces the big-endian form |
| `Bytes.Concat` | service/src/attachments/portableContext.ts:35-40 | the copying loop joins the parts in order with nothing between them |
| `PortableContext.UuidBytesIdentify` | service/src/attachments/portableContext.ts:24-27 | sixteen bytes are equal exactly for UUIDs equal up to letter case (section 4 of RFC 9562) |
| `PortableContext.EncodingIdentifies` | service/src/attachments/portableContext.ts:49-56 | equal encodings come only from equal type, identities, sizes and index, so a manifest never encodes like a chunk |
| `PortableContext.EncodingForgetsOnlyCase` | service/src/attachments/portableContext.ts:49-56 | conversely letter case is all the encoding forgets |
| `PortableContext.EncodeAttachmentContext` | service/src/attachments/portableContext.ts:49-56 | the encoder throws exactly on inputs that are not accepted and otherwise produces the layout |
| `PortableManifest.MimeIdempotent` | service/src/attachments/portableManifest.ts:13 | normalising a media type twice is normalising it once |
| `PortableManifest.EncodeAttachmentManifest` | service/src/attachments/portableManifest.ts:15-20 | the encoder produces the documented layout or throws |
| `PortableManifest.EncodingRoundTrip` | service/src/attachments/portableManifest.ts:15-33 | the encoding of an accepted manifest stands for its normalised form if and only if the sanitised name and that name sanitised once more have byte for byte the same UTF-8 encoding, and name and media type decode back to themselves |
| `PortableManifest.AgreementIsEquality` | service/src/attachments/portableManifest.ts:27-31 | comparing only the indices of the re-encoding already forces equality at full length |
| `PortableManifest.ParsedAndCanonical` | service/src/attachments/portableManifest.ts:21-33 | the cursor pass together with the comparison accepts exactly the bytes that stand for the parsed manifest |
| `PortableManifest.DecodeAttachmentManifest` | service/src/attachments/portableManifest.ts:21-33 | the decoder returns a manifest if and only if the bytes are the encoding of that manifest; nothing canonical is refused |
| `PortableManifest.Take` | service/src/attachments/portableManifest.ts:27 | a length-prefixed text is read, or refused when it is too long or runs past the end |
| `FileLedger.ReservationBytes` | service/src/files/protocol.ts:24 | a reservation is positive whatever the size |
| `FileLedger.LookupExpire` | backend/attachments/fileLedger.ts:16-19 | expiry acts on each transfer separately: keep, expire or drop |
| `FileLedger.LookupChange` | backend/attachments/fileLedger.ts:55-61 | one successful operation changes only the transfer it names, and creates only the one it creates |
| `FileLedger.ActKeepsFile` | backend/attachments/fileLedger.ts:103-120 | put, complete and cancel keep a transfer well formed: distinct nonces, exact chunk lengths, reservation only while live, and no measure grows |
| `FileLedger.ChangeKeepsLedger` | backend/attachments/fileLedger.ts:55-61 | every operation keeps the four quota bounds and every record well formed |
| `FileLedgerInvariant.SlotAfter` | backend/attachments/fileLedger.ts:134-143 | stored ciphertext and ledger entry still agree, index by index and nonce by nonce, after one write |
| `FileLedgerInvariant.SerialKeepsDoc` | backend/attachments/fileLedger.ts:134-145 | one committed operation keeps quotas, ciphertext agreement and the retention time of the whole document |
| `FileLedgerInvariant.LateEnough` | backend/db/retention.ts:17-21 | the seven-day cap never purges a record before its grace day has passed |
| `FileLedgerInvariant.PurgeUnobservable` | backend/db/retention.ts:17-21 | from `purgeAt` on, a missing document and the stale one answer every operation alike and leave the same transfers and ciphertext |
| `FileLedgerInvariant.AvailableIsFrozen` | backend/attachments/fileLedger.ts:103-118 | an available transfer and its ciphertext stay as they are until cancel or expiry |
| `FileLedgerInvariant.AvailableIsWhole` | backend/attachments/fileLedger.ts:118 | an available transfer has its manifest and every chunk, and its plain bytes add up to the declared size |
| `FileLedgerRuns.RunsAreSerializable` | backend/attachments/fileLedger.ts:20-29 | over every interleaving the ledgers are those of running the committed operations one at a time in commit order, none of which fails alone |
| `FileLedgerRuns.LedgersAreSound` | backend/attachments/fileLedger.ts:55-61 | in every reachable state the four quotas hold and stored objects are exactly the recorded chunks, none for canceled, expired or dropped transfers |
| `FileLedgerRuns.AnswersAreFenced` | backend/attachments/fileLedger.ts:65-91 | every answered download returns the committed bytes of a transfer available at its second read and unexpired at release, every status that second snapshot |
| `FileLedgerRuns.WritesWereLiveWhenSent` | backend/attachments/fileLedger.ts:92-96 | every put or completion in effect left a transfer not canceled, and not expired at the check before its update was sent |
| `FileLedgerRuns.AnsweredWritesLandedInTime` | backend/attachments/fileLedger.ts:97-99 | a put or completion reports success if and only if its transfer had not expired when it was answered, so a reported success landed in time |
| `FileLedgerRuns.SentWritesCanLandLate` | backend/attachments/fileLedger.ts:25-26 | from every reachable state a put or completion that has been sent and would still win can land after its transfer's expiry, and is then answered "expired": the check before the update promises no more |
| `FileLedgerRuns.AvailableStays` | backend/attachments/fileLedger.ts:103-120 | once available, record and ciphertext never change again in any continuation of the run, except to die or go |
| `FileLedgerService.LedgerDraft.Expire` | backend/attachments/fileLedger.ts:16-19 | the in-place pass leaves exactly the expiry projection |
| `FileLedgerService.LedgerDraft.Create` | backend/attachments/fileLedger.ts:55-61 | appends a new transfer exactly when all four quotas allow it |
| `FileLedgerService.LedgerDraft.Put` | backend/attachments/fileLedger.ts:103-117 | the in-place write of a manifest or chunk, with its conflict and limit errors |
| `FileLedgerService.LedgerDraft.Complete` | backend/attachments/fileLedger.ts:118 | the loop over the chunk indices completes exactly a transfer with manifest and every chunk |
| `FileLedgerService.LedgerDraft.Apply` | backend/attachments/fileLedger.ts:96 | the draft after a callback is the changed ledger, or unchanged on an error |
| `FileLedgerService.LedgerCollection.CollectEnded` | backend/attachments/fileLedger.ts:139-140 | the loop collects exactly the transfers whose reservation ends with the write |
| `FileLedgerService.LedgerCollection.Replace` | backend/attachments/fileLedger.ts:134-145 | writes ledger, ciphertext and removals together if and only if the revision read is still stored |
| `FileLedgerService.FileLedgerService.Atomic` | backend/attachments/fileLedger.ts:20-29 | whatever others commit between its steps, success means that the hook before the commit passed and one serial effect on the very document it replaced; a change, hook or race that fails leaves none, and storage errors come only after twelve lost races |
| `FileLedgerService.FileLedgerService.Access` | backend/attachments/fileLedger.ts:92-100 | a whole write with the checks after its commit: success means it took effect on a transfer unexpired at the answer, a refusal by the last checks that it took effect all the same, any other that it never did |
| `RateLimiter.RateLimiter.Consume` | backend/socket.io/rateLimiter.ts:28-45 | refills, stamps and charges the bucket of the key and no other |
| `RateLimiter.HttpRateLimiter.Make` | backend/middleware/httpRateLimiter.ts:5-7 | the constructor accepts exactly idle times long enough for a full refill |
| `RateLimiter.HttpRateLimiter.Consume` | backend/middleware/httpRateLimiter.ts:9-24 | sweep, saturation and charge in that order |
| `RateLimiter.HttpRateLimiter.SweepIdle` | backend/middleware/httpRateLimiter.ts:12 | the loop removes exactly the idle buckets |
| `RateLimiter.IdleIsFull` | backend/middleware/httpRateLimiter.ts:6-12 | a bucket idle for the accepted time has refilled completely |
| `RateLimiter.HttpRefinesPlain` | backend/middleware/httpRateLimiter.ts:9-24 | the sweeping limiter answers every call like the never-evicting one unless the table is full, and the table never outgrows its bound |
| `RateLimiter.AgreesExactlyWithRefill` | backend/middleware/httpRateLimiter.ts:5-24 | among accepted bounds that refinement holds on every run if and only if the refill is positive |
| `RateLimiter.NoRefillForgets` | backend/middleware/httpRateLimiter.ts:5-24 | with refill 0, for any capacity, a run on which the two limiters differ |
| `RateLimiter.RateIsBounded` | backend/middleware/httpRateLimiter.ts:9-24 | over any window a key is admitted at most capacity plus refill times elapsed seconds |
| `RateLimiter.RateIsReached` | backend/middleware/httpRateLimiter.ts:9-24 | and that bound is reached, at every accepted whole capacity with a whole number of milliseconds per token, by runs of any length |
| `Mailbox.MailboxStore.Insert` | backend/db/inMemDB.ts:90-97 | returns the row already under the dedupe key, or appends one active row |
| `Mailbox.MailboxStore.NextActive` | backend/db/inMemDB.ts:75-81 | finds the first pending row in delivery order, or knows there is none |
| `Mailbox.MailboxStore.Claim` | backend/db/inMemDB.ts:99-110 | claims the head and only the head; a leased head blocks its mailbox |
| `Mailbox.MailboxStore.Ack` | backend/db/inMemDB.ts:117-124 | removes one row matching id and claim id, or matching id and holding no claim id, and fails only when no row matches |
| `Mailbox.MailboxStore.Reject` | backend/db/inMemDB.ts:126-144 | makes exactly the row holding the claim terminal, and tells duplicates from stale claims |
| `Mailbox.MailboxStore.RecordRejection` | backend/db/inMemDB.ts:146-163 | terminal marker, terminal row or duplicate, by what the dedupe key already names |
| `Mailbox.MailboxStore.DeleteExpired` | backend/db/inMemDB.ts:165-170 | drops every expired row and no other |
| `MailboxSystem.MailboxIsBounded` | backend/db/index.ts:179-191 | in every reachable state a mailbox holds at most 64 active rows |
| `MailboxSystem.ProbeVisitsEverySlot` | backend/db/index.ts:179-181 | the probe reaches every slot at exactly one offset |
| `MailboxSystem.MessageCollection.StoreOfflineMessage` | backend/db/index.ts:164-191 | without concurrent writers a new envelope is refused as storage full if and only if the global or the sending device's cap is reached, and as mailbox quota if and only if neither is and all 64 slots of its mailbox are taken |
| `MailboxSystem.RowsAreConserved` | backend/db/index.ts:216-260 | over whole runs: a row present earlier and gone later was removed by an event in between, an acknowledgement by its latest claim id at that time, one without id while it held none, or after expiry |
| `MailboxSystem.RejectionsHaveCause` | backend/db/index.ts:225-260 | likewise a row active earlier and terminal later was rejected by its latest claim id at that time, or recorded by its dedupe key |
| `MailboxSystem.ContentStays` | backend/db/index.ts:164-260 | along any run identity, mailbox, timestamp and expiry of a row never change, nor its envelope and slot while it is active |
| `MailboxSystem.OneRowPerKey` | backend/db/index.ts:164-191 | in every reachable state a dedupe key, and a claim id, is held by at most one row |
| `MailboxSystem.TerminalStays` | backend/db/index.ts:225-260 | along any run a terminal row is never claimed or active again, and a removed row never returns |
| `MailboxSystem.ClaimsNeverSkip` | backend/db/index.ts:193-208 | when a claim lands, every row that existed at its lookup and sorts before it is gone, terminal or had expired then |
| `MailboxSystem.OneLiveLease` | backend/db/index.ts:193-208 | while no unexpired letter is stored ahead of a row of its mailbox under a live lease, or about to be, no mailbox has two live leases |
| `MailboxSystem.TwoLeasesOutOfOrder` | backend/db/index.ts:164-208 | from every reachable state a step that does store one so has a continuation, storing nothing more, to two live leases in that mailbox |
| `MailboxSystem.OrderIsExact` | backend/db/index.ts:164-208 | so the condition is exact: after a run in order, a step keeps every orderly continuation free of double leases if and only if it is in order |
| `MailboxSystem.TwoLeasesHappen` | backend/db/index.ts:164-208 | such a run exists from the empty database |
| `MailboxSystem.OneClaim` | backend/db/index.ts:193-208 | while no unexpired letter is stored ahead of a row that holds a claim or has been looked up for one, at most one pending row of a mailbox holds a claim, its lease over or not |
| `Delivery.MailboxDatabase.ClaimHead` | backend/db/index.ts:193-208 | lookup and compare-and-swap with others in between: what it returns is an active row of the mailbox now claimed with the fresh id |
| `Delivery.MailboxDatabase.DeliverOne` | backend/socket.io/multiplexed.ts:270-339 | one round touches the mailbox only by claiming a head and settling what it emitted, as it was answered |
| `Delivery.MailboxDatabase.DeliverMailboxBatch` | backend/socket.io/multiplexed.ts:269-341 | among any interleaving the loop removes a row only under a claim whose envelope the recipient accepted, makes one terminal only under a claim it rejected for good, goes on only after an answer, and reports drained only if nothing was pending |
| `Delivery.AfterIsARun` | backend/socket.io/listeners.ts:161-200 | whatever the loop and the others do together is a run of the mailbox, so all its invariants apply |
| `Delivery.HeadsComeInOrder` | backend/db/index.ts:193-208 | however the mailbox changes in between, a row present when an earlier head was taken becomes head only after it in delivery order |
| `RoomLock.ResolvedIsDone` | backend/socket.io/multiplexed.ts:125-138 | a tail promise has resolved exactly when its operation has completed |
| `RoomLock.TurnsInArrivalOrder` | backend/socket.io/multiplexed.ts:125-138 | an operation may enter only when everyone who arrived before it for the key has finished |
| `RoomLock.OneInside` | backend/socket.io/multiplexed.ts:125-138 | at most one operation per key is inside |
| `RoomLock.NoLostTurn` | backend/socket.io/multiplexed.ts:125-138 | the earliest unfinished operation is inside or may enter: deleting map entries loses nobody |
| `RoomLock.NoEntryLeft` | backend/socket.io/multiplexed.ts:133-137 | the last of a key removes its map entry |
| `RoomOwnership.LegacyOwnerSound` | backend/socket.io/multiplexed.ts:452-458 | the lookup answers with a live owner, or leaves no entry |
| `RoomOwnership.MuxOwnerSound` | backend/socket.io/multiplexed.ts:460-466 | the same for the mux table, keeping both maps inverse |
| `RoomOwnership.RemoveSubscriptionSound` | backend/socket.io/multiplexed.ts:411-422 | removal keeps the maps inverse and registers nothing |
| `RoomOwnership.InvalidateSound` | backend/socket.io/multiplexed.ts:424-432 | an invalidated device keeps no mux registration |
| `RoomOwnership.FenceForMuxSound` | backend/socket.io/multiplexed.ts:594-600 | before a mux install nobody holds the key on either transport, and the contender holds no other address of the room |
| `RoomOwnership.FenceForLegacySound` | backend/socket.io/listeners.ts:347-349 | before a legacy install nobody holds the key on the mux transport |
| `RoomRuns.NeverBothTransports` | backend/socket.io/multiplexed.ts:594-607 | in no reachable state is a (room, address) registered on both transports |
| `RoomRuns.MapsAreInverse` | backend/socket.io/multiplexed.ts:411-422 | in every reachable state the mux room map and the subscriptions of the sockets are mutual inverses |
| `RoomRuns.OneAdmissionAtATime` | backend/socket.io/multiplexed.ts:555-607 | an admission past the lock has no earlier admission of its key left beside it |
| `RoomRuns.DisplacedOnlyWithCause` | backend/socket.io/listeners.ts:318-355 | on either admission path a live owner loses its registration only if this check finds its device inactive, if it is the contender, or if an earlier check event of this very admission, open ever since, found it active with account, device and epoch equal to the contender's |
| `RoomRuns.ClearedWasChecked` | backend/socket.io/listeners.ts:330-343 | whoever an admission has recorded as cleared was at the head of its owners in an earlier check of the run, found active on the contender's device at its epoch |
| `RoomRuns.EvictSound` | backend/socket.io/multiplexed.ts:568-573 | after an inactive owner is evicted it holds the key on neither transport |
| `RoomRuns.InstallTakesOver` | backend/socket.io/multiplexed.ts:594-607 | a completed admission leaves the contender as sole owner on its transport |
| `RoomTables.RouteTable.Get` | backend/socket.io/clients.ts:46-58 | finds the socket registered for the pair, if any |
| `RoomTables.RouteTable.SetClientToChannel` | backend/socket.io/clients.ts:65-73 | the nested update sets one pair and keeps all others |
| `RoomTables.RouteTable.DeleteClient` | backend/socket.io/clients.ts:75-83 | deletes only for the expected socket, and drops a room that becomes empty |
| `RoomTables.Relay.RemoveSubscription` | backend/socket.io/multiplexed.ts:411-422 | the in-place removal is the removal reasoned about, and acts only on the socket's current subscription |
| `RoomTables.Relay.LegacyRoomOwner` | backend/socket.io/multiplexed.ts:452-458 | likewise the legacy lookup |
| `RoomTables.Relay.MuxRoomOwner` | backend/socket.io/multiplexed.ts:460-466 | likewise the mux lookup |
| `RoomTables.Relay.InvalidateMuxDeviceSocket` | backend/socket.io/multiplexed.ts:424-432 | the loop over the subscriptions removes all of them, then device entry and connection |
| `RoomTables.Relay.InstallMuxOwner` | backend/socket.io/multiplexed.ts:594-606 | the synchronous fence and install of the mux path |
| `RoomTables.Relay.InstallLegacyOwner` | backend/socket.io/listeners.ts:346-352 | the synchronous fence and install of the legacy path |
| `MailboxPump.OneBatchPerMailbox` | backend/socket.io/multiplexed.ts:352-380 | in every reachable state each mailbox has at most one batch running, a pump in the table is running or armed, and a request waits only while one runs |
| `MailboxPump.WakeupLeadsToBatch` | backend/socket.io/multiplexed.ts:382-391 | unless it is cancelled, every request has been followed by a new batch once the pump is no longer running |
| `MailboxPump.CancelledPumpStops` | backend/socket.io/multiplexed.ts:393-402 | over runs: after a cancellation no new batch of the mailbox begins, unless it is requested again or the running batch ends at the batch limit or for a retry by a socket that still owns the subscription |
| `MailboxPump.MailboxPumps.StartPump` | backend/socket.io/multiplexed.ts:352-358 | nothing while it runs, else one batch begins and takes the request |
| `MailboxPump.MailboxPumps.RequestDelivery` | backend/socket.io/multiplexed.ts:382-391 | the request in place, keeping that every running or armed pump object ever made is the one in the table |
| `MailboxPump.MailboxPumps.TimerFires` | backend/socket.io/multiplexed.ts:342-350 | the timer callback in place, under the same invariant |
| `MailboxPump.MailboxPumps.BatchFinished` | backend/socket.io/multiplexed.ts:356-379 | the rest of the loop and its cleanup in place, under the same invariant |
| `MailboxPump.MailboxPumps.CancelPump` | backend/socket.io/multiplexed.ts:393-402 | cancellation in place, for the owning socket only, under the same invariant |
| `SessionStore.ChangedKeeps` | client/src/product/sessionStore.ts:151-180 | a save or patch keeps capability, remote address, invitation, established and accepted state |
| `SessionStore.MutatedIsCareful` | client/src/product/sessionStore.ts:121-147 | one commit keeps the order and value of every other entry, unreadable ones included, the window, and the markers |
| `SessionStore.AppliedDisjoint` | client/src/product/sessionStore.ts:129-140 | index and removal markers stay disjoint over any sequence of commits |
| `SessionStore.RemovedNeverReappears` | client/src/product/sessionStore.ts:129-140 | a removed room stays removed over any sequence of commits |
| `SessionStore.ProgressIsNeverUndone` | client/src/product/sessionStore.ts:151-180 | established and accepted are never undone, capability and remote address never change once set, until the room is removed for good; and no sequence of patches ever empties a nickname, dismissal, archiving or pending expiry that has a value |
| `SessionStore.IndexIsBoundedAndPreserved` | client/src/product/sessionStore.ts:131-140 | readable entries stay within 1000, unreadable ones keep value and order, markers are only added |
| `SessionStore.OtherRoomsUntouched` | client/src/product/sessionStore.ts:135-139 | rooms that no writer names keep their entries |
| `SessionStore.PatchTakesEffect` | client/src/product/sessionStore.ts:121-179 | for every committed patch and each of the four fields it can clear, the stored field is what the patch asks, trimmed, if and only if the patch does not clear a field that holds a value |
| `SessionStore.ClearedFieldsStay` | client/src/product/sessionStore.ts:138-179 | a cleared field keeps the value it had |
| `SessionStore.ClearingInVain` | client/src/product/sessionStore.ts:138-179 | a store and a patch that clears all four fields, commits, and leaves all four |
| `SessionStore.ConversationStorage.TryOnce` | client/src/product/sessionStore.ts:124-143 | with two separate reads and any commits between them, a winning round replaces exactly the store its change was computed from |
| `SessionStore.ConversationStorage.Mutate` | client/src/product/sessionStore.ts:121-148 | the retry loop commits exactly one change or none |
| `SessionStore.ConversationStorage.SaveDescriptor` | client/src/product/sessionStore.ts:151-162 | a descriptor whose raw fields do not validate, nickname length and control characters included, is refused with the store untouched; otherwise one merge is committed or none |
| `MessageStore.MergeHistory` | client/src/product/messageStore.ts:151-162 | the loops over stored and incoming messages compute the merge |
| `MessageStore.SortIsStable` | client/src/product/messageStore.ts:161 | the sort orders by timestamp and keeps the order of equal timestamps |
| `MessageStore.StableSortIsUnique` | client/src/product/messageStore.ts:161 | any stable sort by timestamp gives that same list |
| `MessageStore.MergeIsLossless` | client/src/product/messageStore.ts:151-162 | up to 2000 ids: no id lost or duplicated, each rank the maximum of stored and incoming, content kept, sorted |
| `MessageStore.MergeIsIdempotent` | client/src/product/messageStore.ts:151-162 | merging the same input again changes nothing |
| `MessageStore.AcceptSurvives` | client/src/product/messageStore.ts:98-114 | an acceptance adds its message once, keeps every other, and refuses a conflicting identity |
| `MessageStore.NothingIsLost` | client/src/product/messageStore.ts:98-149 | while at most 2000 ids have been seen, no interleaving of merges and acceptances loses or duplicates a message or lowers a rank |
| `MessageStore.MessageStorage.TryCommit` | client/src/product/messageStore.ts:142-147 | a commit replaces the very history it was computed from |
| `MessageStore.MessageStorage.WriteMessages` | client/src/product/messageStore.ts:135-149 | up to eight attempts commit exactly one merge or nothing |
| `DeviceTrust.DeviceTrustControlPlane.Register` | backend/security/deviceTrust.ts:26-32 | refuses revoked devices, changed identities and lower epochs, otherwise activates |
| `DeviceTrust.DeviceTrustControlPlane.Revoke` | backend/security/deviceTrust.ts:33-37 | revokes only an active device, at a higher epoch |
| `DeviceTrust.DeviceTrustControlPlane.Purge` | backend/security/deviceTrust.ts:48 | the loop forgets exactly the expired nonces |
| `DeviceTrust.DeviceTrustControlPlane.Verify` | backend/security/deviceTrust.ts:44-51 | accepts a standing proof, consuming it, unless its nonce is still remembered |
| `DeviceTrust.IssuedVerifies` | backend/security/deviceTrust.ts:38-51 | an issued proof verifies exactly until it expires, is consumed, or its device moves on |
| `DeviceTrust.DevicesMoveForward` | backend/security/deviceTrust.ts:26-37 | over any run state and epoch only move forward, each change of state raises the epoch, revocation is final |
| `DeviceTrust.OldProofsNeverVerify` | backend/security/deviceTrust.ts:44-47 | after a revocation or a higher epoch no earlier proof of the device verifies |
| `DeviceTrust.ConsumedOnce` | backend/security/deviceTrust.ts:48-49 | in any run each proof is consumed at most once although the table is purged |
| `DurableDeviceRuns.DevicesMoveForward` | backend/security/durableDeviceTrust.ts:51-100 | over any interleaving a device only moves pending, active, revoked, its epoch rising by exactly one per change |
| `DurableDeviceRuns.OneRecordPerDevice` | backend/security/durableDeviceTrust.ts:35-44 | racing bootstraps and enrollments never give one device identifier two records |
| `DurableDeviceRuns.OldProofsNeverPass` | backend/security/durableDeviceTrust.ts:120-128 | once a device is revoked or past a proof's epoch, every later read refuses the proof |
| `DurableDeviceRuns.AcceptanceRestsOnRead` | backend/security/durableDeviceTrust.ts:120-128 | every accepted verification rests on an earlier read event that found the device active at the proof's identity and epoch, before any moment of revocation or a later epoch; only its record may land later |
| `DurableDeviceRuns.AcceptedOnceBeforeExpiry` | backend/security/durableDeviceTrust.ts:30-33 | of two acceptances of one proof the second lands at or after its expiry |
| `DurableDeviceRuns.ConsumedOnceBeforeExpiry` | backend/security/durableDeviceTrust.ts:30-33 | the same for request and event identifiers |
| `DurableDeviceRuns.LateRecordAcceptsTwice` | backend/security/durableDeviceTrust.ts:30-33 | from any reachable state a run in which a record landing at expiry gives a second acceptance: the bound above is exact |
| `DurableDeviceService.MongoDeviceTrustStore.Upsert` | backend/security/durableDeviceTrust.ts:22-29 | replaces a record, with an expected epoch only the one that still has it |
| `DurableDeviceService.MongoDeviceTrustStore.Consume` | backend/security/durableDeviceTrust.ts:30-33 | records an identifier once and only before it expires |
| `DurableDeviceService.MongoDeviceTrustStore.Bootstrap` | backend/security/durableDeviceTrust.ts:51-61 | a call that runs alone does what its worker does, and on success has written the first record at epoch 1 |
| `DurableDeviceService.MongoDeviceTrustStore.Enroll` | backend/security/durableDeviceTrust.ts:62-79 | for a call that runs alone: its worker's steps, and on success a pending record one epoch above its issuer |
| `DurableDeviceService.MongoDeviceTrustStore.Activate` | backend/security/durableDeviceTrust.ts:81-88 | for a call that runs alone: its worker's steps, and on success the device is active one epoch on |
| `DurableDeviceService.MongoDeviceTrustStore.Update` | backend/security/durableDeviceTrust.ts:89-100 | for a call that runs alone: its worker's steps, and on success the target is revoked |
| `DurableDeviceService.MongoDeviceTrustStore.Verify` | backend/security/durableDeviceTrust.ts:120-128 | for a call that runs alone: its worker's steps; success needs a standing proof not yet recorded, and records it |

## Left out

- MailboxSystem.OneLiveLease: assumes that no letter is stored ahead of a live row, which the database does not enforce; OrderIsExact shows that it must be assumed. Leases end after the lookup, as both callers ask for now plus a positive time.
- RateLimiter.HttpRefinesPlain: assumes a positive refill and a clock that does not go back; calls refused by a full table leave no trace in the plain limiter it is compared with.
- MessageStore.MergeIsLossless: up to 2000 distinct ids; beyond that the cut drops the oldest, and ties at the cut depend on insertion order.
- DurableDeviceRuns.AcceptedOnceBeforeExpiry: a second acceptance is excluded only before the proof expires, because the program's expiry check and its insert are two steps.
- PortableManifest.EncodingRoundTrip: sanitising a filename and UTF-8 (section 3 of RFC 3629) are parameters, because sanitising is not idempotent in general.
- FileLedgerInvariant.PurgeUnobservable: a purge while a write is in flight is not modelled, because revisions restart after it.
- The trust and identity lookups around a file operation may refuse it at any point; the model lets every worker abort between any two steps instead.
- File objects are their decoded bytes; base64url, and the shape checks of request bodies, are not modelled. The indices of a status are a set.
- The two-addresses-per-room capacity is checked as in the code but not claimed as an invariant, because an await separates the check from the legacy install.
- Room control, routing proofs and channel validity only decide whether an admission goes on; the model lets an admission be refused at any stage.
- The legacy replay loop is the one in Delivery without its result; its timers and backoff, the notices to senders, and the retry times are left out.
- The global and per-device storage caps are in `MessageCollection.StoreOfflineMessage`; in `MailboxSystem` a store they refuse is one that is abandoned, and the array store is without them.
- DurableDeviceService: its methods are proved for calls that run alone; their interleavings are those of the workers in `DurableDeviceRuns`.
- Rows without an expiry time, and rows written before states existed.
- Durable proof issuing, the resource bound into a proof, and the fence counter that routing transactions keep in a device record; `routingOwnership.ts` and the first-generation attachment stores are not part of this model.
- `RateLimiter.reset`, the socket operation queue, and other small gates.
- Reading the conversation list and quarantining unreadable messages; the JSON text of the records (a compare-and-swap compares decoded records, which lets it succeed at least as often as comparing bytes); `prepareHeldTextRetry`, which deletes a message on purpose; stores without compare-and-swap.
- Encryption, signatures, user interface and transports.
