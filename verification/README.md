# Proofs about the collaboration server

A Dafny model of the parts of the API whose behaviour is hardest to see by
reading one function: the live rooms of the coding board, seat reservation, the
chat guard, the expiry sweep, rate limiting and IP blocks, search escaping,
unique names, and the cache of email templates. Everything is proved for all
inputs, all reachable states or all runs. `dafny verify dfyconfig.toml` checks it.

## How it is built

**Live board rooms.** `BoardRoom` is one room as a value; `BoardMachine` is one
document's whole world as a state machine: sockets opening and leaving, loads,
edits, presence, saves, timers, writes in the database, eviction. Node runs the
code between two `await`s without interruption, so each such stretch is one
step, and steps of any number of sockets interleave freely. `BoardRoomsService`
and `BoardsGateway` are the same stretches as methods on objects updated in
place, each proved to do to its own document what the machine's step does and
nothing to any other document. The properties are one module each:
`BoardSharing`, `BoardRelay`, `BoardPresence`, `BoardDurability`, `BoardLoss`,
`BoardTiming`, `BoardBytes`, `BoardEviction`, `BoardGate`, `BoardIdle`; those
about single rooms go through `BoardRoomEvents`, which says what each step does
to one room. `BoardTwoRooms` and `BoardUnloadRace` say exactly when a closing
breaks them, with `BoardReopening` for the next visitor; `BoardStaleTimers` and
`BoardSplitRoom` are a run in which that happens. `BoardEventLoop` puts the
documents together again: calls about any of them, in any order, on one service.

**Seats** interleaves the statements of any number of transactions under a row
lock and refines them to requests done at once. **ChatGuard**, **ExpirySweep**,
**RateLimiter**, **BlockRecords** and **TemplateCache** are the objects with
their fields, and lemmas about whole histories of calls. **SearchEscaping** has
its own reader and matcher for LIKE patterns (section 9.7.1 of the PostgreSQL
manual, section 8.5 of ISO/IEC 9075-2). **UniqueNames** counts in JavaScript
numbers, which **JsNumbers** defines (IEEE 754 double precision, round to even).

## What is assumed

- A Yjs document is a growing set of operations with an encoded size. Applying
  an update is union; the size grows by at most the update's bytes; re-encoding
  a stored document never grows it; the update event fires when something is new.
- y-protocols reports a change as added, updated and removed ids, pairwise
  disjoint; added ones were not showing. Whole-run ownership also assumes that
  updated ids were showing (`AddedMeansNotShown`).
- Writes to one document commit in the order they were issued. Reads are
  answered with committed rows. A board's rows cannot be written once it is gone.
- Unload timers are keyed: one that would close its room fires when the key
  still holds that room, or when no room is live. For durability they are also
  settled: none closes the live room with a write of that room outstanding. The
  code enforces neither; `BoardSplitRoom` and `BoardUnloadRace` are runs that
  break them. Departures that do not overlap are enough for keyed
  (`DeparturesApartAreKeyed`), and `FiringCanSplitExactly` shows that nothing
  weaker than keyed would do. Something weaker than settled does: it is enough that the row already holds
  the document at each closing (calm), and `ClosingIsSafeExactly` shows that this
  is exact.
- `NoMissedUpdate` further assumes that no unload timer fires between the result
  of a load and the joins it resumes; in Node those are microtasks of one turn.
- A socket does one thing at a time with a document: its open does not overlap
  another open of it, its leave or its disconnect.
- Timers are on time and no save fails, for the delay bound only (`Prompt`).
- After eviction begins, `requireMember` (apps/api/src/boards/services/boards.service.ts:95-109)
  refuses the board as expired. Whoever passed it before has asked for the room
  by then: only microtasks lie between the two.
- Redis runs a script as one step; a key is live through the millisecond of its
  expiry, so PTTL can answer 0. The guard's and the admins' operations are one
  step each. Clocks do not run backwards.
- Seats: a statement sees committed rows, the row lock lasts until the
  transaction ends, a board is deleted only when its row is free, and its
  number of seats never changes.
- A board's code is its own for good, and board ids contain no colon.
- Boards go through the sweep. Deleting a host's account also deletes the boards
  by a cascade (apps/api/src/boards/entities/board.entity.ts:51), without any
  eviction; durability, eviction and the sweep's count leave that out.
- Lower-casing works character by character and leaves digits, spaces and
  parentheses alone; no visible character becomes one that begins with a space.

## What turned out false

- **An accepted edit can be lost.** `leave` overwrites the unload handle without
  clearing it (board-rooms.service.ts:198), so a timer from an earlier departure
  can close a room whose last write is still outstanding, and the next open
  reads the old row. While every earlier closing was calm, an edit can be lost
  after a closing if and only if the row lacks it at that moment; over a row
  below the cap no load or save needs to fail for it.
- **One document can have two rooms.** `unload` deletes by key, not by room
  (board-rooms.service.ts:371), so a stale timer can cut off a newer room. After
  the firing of an unload timer two rooms can come to be in use if and only if
  the timer was not keyed. Two more properties fail on the same condition:
  everyone who has the document open is outside the live room, and an eviction
  can leave the cut-off room in use, whose save timer, if armed, still writes
  (`BoardEviction.StrayRoomStillSaves`).
- **`bytes` is not the upper bound** its comment says it is (board-rooms.service.ts:73):
  the end of a save forgets what arrived during it, and the document can pass
  the cap.
- **A cursor can outlive its socket**: an id cleared and shown again is reported
  as updated, and the listener only records added ids.
- **The rate limit's window** holds up to 2 * limit - 1 calls, and the bound needs
  blockDuration >= ttl.
- **`expiresAt`** is not blockedAt + blockDuration after a change, though the
  field's comment says so (admin-security.service.ts:28).
- **`uniqueName`** never ends on a taken name numbered 2^53, and a blank request
  can collide.
- **An email template update** can be undone in the cache by a load across it.

In each case the code is modelled as it is, the failing input or run is a
lemma, and the exact condition is proved beside it where the code has one.

## Model

| member | source | states |
|---|---|---|
| `BoardSharing.AtMostOneLoadAndOneRoom` | apps/api/src/boards/services/board-rooms.service.ts:250-261 | From a cold start, in every interleaving of opens, loads, failures, keyed unloads and evictions: at most one load of a document is running, at most one room object of it is undisposed, and none is live while a load runs. |
| `BoardTwoRooms.FiringCanSplitExactly` | apps/api/src/boards/services/board-rooms.service.ts:368-372 | After any keyed past without eviction, the firing of an unload timer can be followed by a run that has two rooms of the document in use if and only if the timer was not keyed: it closed a room while the key held another. |
| `BoardTwoRooms.FiringCanOutliveEvictionExactly` | apps/api/src/boards/services/board-rooms.service.ts:216-220 | On the same condition, and no other, an eviction can follow that leaves a room of the document in use. |
| `BoardReopening.SomebodyOpens` | apps/api/src/boards/services/board-rooms.service.ts:250-278 | Whenever a document is closed and can be made, a new visitor can open it without any fault: alone in a new room made from the row as it is then, with older rooms, timers and writes where they were. |
| `BoardReopening.ProjectsAreStartedOnPurpose` | apps/api/src/boards/services/board-rooms.service.ts:263-268 | However often a project is opened, it has no room and no row until somebody starts it. |
| `BoardSharing.ResultsAreFinal` | apps/api/src/boards/services/board-rooms.service.ts:257 | A load keeps the result it got, whatever else happens. |
| `BoardSharing.WaitersAgree` | apps/api/src/boards/services/board-rooms.service.ts:255-260 | Everyone waiting on one load, resumed whenever, is handed the same room, or all nothing, or all the failure. |
| `BoardRelay.OpenSocketsHaveHeardAll` | apps/api/src/boards/services/board-rooms.service.ts:133-168 | In every run, whatever timers, saves and evictions do, a socket that has a document open has been given everything in the room it joined. A socket does one thing at a time with a document. |
| `BoardRelay.NoMissedUpdate` | apps/api/src/boards/gateways/boards.gateway.ts:91-148 | No missed update: until the board is evicted, a socket that finished opening and has not begun leaving is in the live room, and the live document is contained in its snapshot plus everything relayed to it plus its own accepted edits. |
| `BoardRelay.FiringServesExactly` | apps/api/src/boards/services/board-rooms.service.ts:368-372 | After such a past, when an unload timer fires every socket that has the document open is still in the live room and has been given all of it, if and only if the timer was keyed or nobody has the document open. |
| `BoardGate.EditsReachEveryone` | apps/api/src/boards/services/board-rooms.service.ts:152-168 | In every run as for `NoMissedUpdate`: an edit from a socket that has the document open is in the live room, and everyone who has it open has all of it and nobody unsubscribed hears of it, if and only if it is within 256 KiB and leaves the room's bytes within 4 MiB; otherwise nothing changes. |
| `BoardGate.SubscribersExactly` | apps/api/src/boards/gateways/boards.gateway.ts:137-200 | In every run a socket hears a document if and only if it is opening it or has it open, or the last thing its handlers did was to fail at opening it. |
| `BoardGate.LeaversHearNothing` | apps/api/src/boards/gateways/boards.gateway.ts:157-164 | From the moment a socket begins to leave, nothing of the document reaches it and nothing it sends counts, in any run, until it opens the document again. |
| `BoardGate.UnstartedIsLeft` | apps/api/src/boards/gateways/boards.gateway.ts:193-198 | A socket that finds a project not started is unsubscribed again. |
| `BoardPresence.PresenceIsOwned` | apps/api/src/boards/services/board-rooms.service.ts:304-316 | Over every run, reading added as not shown before, each cursor shown in a room belongs to a socket now in it, also after timeouts. |
| `BoardPresence.EmptyRoomShowsNoCursors` | apps/api/src/boards/services/board-rooms.service.ts:187-194 | A room nobody is in shows no cursors. |
| `BoardPresence.LeaverTakesItsCursors` | apps/api/src/boards/services/board-rooms.service.ts:187-194 | In every such run a leaving socket takes exactly its own cursors away, and each cursor left has an owner still in the room. |
| `BoardPresence.ChangeKeepsOwnershipExactly` | apps/api/src/boards/services/board-rooms.service.ts:311-316 | A presence change keeps ownership if and only if every id it reports as updated is already claimed by someone. |
| `BoardPresence.ReclaimingRunsKeepOwnership` | apps/api/src/boards/services/board-rooms.service.ts:304-316 | Ownership over whole runs under that exact condition on each change. |
| `BoardPresence.ShownUpdatesAreReclaimed` | apps/api/src/boards/services/board-rooms.service.ts:311-316 | In a room where every cursor is owned, updating shown cursors updates owned ones: why the reading of added suffices. |
| `BoardPresence.ReshownCursorOutlivesItsSocket` | apps/api/src/boards/services/board-rooms.service.ts:313-315 | The failing case: an id cleared by its owner and shown again is reported as updated, nobody owns it, and it outlives its socket. |
| `BoardPresence.CursorsChangeExactly` | apps/api/src/boards/services/board-rooms.service.ts:170-194 | After any step whatever, a cursor is shown in a room if and only if the step shows it (a small enough change from a joined socket that adds or updates it), or it was shown and the step does not take it: by such a change that removes it, by its time running out, or by the departure of a socket that claims it. |
| `BoardPresence.CursorStaysUntilTaken` | apps/api/src/boards/services/board-rooms.service.ts:133-149 | Over whole runs: a cursor once shown is still there for whoever joins next, until one of these takes it. |
| `BoardDurability.AcceptedEditsAreKept` | apps/api/src/boards/services/board-rooms.service.ts:349-372 | No accepted edit is lost: in every run before eviction whose rooms close with none of their writes outstanding, each one is in the live document, or, with no room live, in the stored row and in every write that may still replace it. |
| `BoardDurability.SettledRunsAreCalm` | apps/api/src/boards/services/board-rooms.service.ts:368-372 | When no write of a closing room is outstanding the row holds its document, at every closing of every such run. |
| `BoardDurability.CalmRunsKeepAcceptedEdits` | apps/api/src/boards/services/board-rooms.service.ts:349-372 | The same promise to accepted edits when the row holds the document at each closing, whatever is outstanding. |
| `BoardDurability.CleanRoomIsStored` | apps/api/src/boards/services/board-rooms.service.ts:354-358 | In every such run a clean room with no write of its own outstanding is exactly what is stored, and writes left over from earlier rooms take nothing away. |
| `BoardDurability.FailedSaveLeavesDirty` | apps/api/src/boards/services/board-rooms.service.ts:359-365 | A failed save leaves its room marked unsaved, since the first change that came meanwhile or else since now, and touches neither document, bytes nor timer. |
| `BoardDurability.ReopeningRestoresTheDocument` | apps/api/src/boards/services/board-rooms.service.ts:263-275 | After an unload with none of the room's writes outstanding, as at every closing before, and however long the document stays closed, the next load hands back the very operations the closed room held. |
| `BoardLoss.ClosingLosesExactly` | apps/api/src/boards/services/board-rooms.service.ts:368-372 | After any keyed past: an edit of a closing room can be lost in some later run if and only if the row, or a write that may yet replace it, lacks the edit. |
| `BoardLoss.RowDecidesLoss` | apps/api/src/boards/services/board-rooms.service.ts:368-372 | After a calm past: an accepted edit can be lost after a closing if and only if the row lacks it at that moment. |
| `BoardLoss.ClosingIsSafeExactly` | apps/api/src/boards/services/board-rooms.service.ts:368-372 | So closings over a row that holds the document are exactly those after which no accepted edit can ever be lost. |
| `BoardLoss.AnchoredCannotBeLost` | apps/api/src/boards/services/board-rooms.service.ts:349-372 | An edit that the row, the pending writes, the running loads and the live room all have is never lost again, in any keyed run, however saves fail. |
| `BoardUnloadRace.ClosingTooSoonCanLose` | apps/api/src/boards/services/board-rooms.service.ts:196-202 | From every state before eviction in which no room is live, every load has ended, and the row, or the seed of a code document without one, lacks an accepted edit and is below the cap: some run without any failed load or save leaves that edit in no document, row or write, however many writes are still on their way. |
| `BoardUnloadRace.RowDecidesLossWithoutFault` | apps/api/src/boards/services/board-rooms.service.ts:368-372 | After a calm past, over a row below the cap or none: an accepted edit can be lost after a closing without any failed load or save if and only if the row lacks it at that moment. |
| `BoardUnloadRace.UnloadRaceLosesAnEdit` | apps/api/src/boards/services/board-rooms.service.ts:196-202 | A complete run from a cold start, without eviction or fault, that gets there through the overwritten unload handle. |
| `BoardSplitRoom.StaleTimersSplitTheRoom` | apps/api/src/boards/services/board-rooms.service.ts:196-202 | A complete run, timers firing in the order they were set and nothing failing, in which a stale timer of an old room deletes the new one from the map: two rooms of one document in use, and a socket that has it open outside the live one. |
| `BoardSplitRoom.StrandedEditsAreIgnored` | apps/api/src/boards/services/board-rooms.service.ts:240-247 | Whatever that socket writes changes nothing. |
| `BoardIdle.DeparturesApartAreKeyed` | apps/api/src/boards/services/board-rooms.service.ts:196-202 | When each departure ends in a room still in use and overwrites no pending timer, every unload timer is keyed. |
| `BoardIdle.RejoiningRestartsTheWait` | apps/api/src/boards/services/board-rooms.service.ts:140-141 | After such a past, whoever comes into a room cancels its timer: in any run that follows none of that room fires within a minute. |
| `BoardIdle.IdleRoomIsClosed` | apps/api/src/boards/services/board-rooms.service.ts:368-379 | After such a past, a timer that fires is the live room's: it closes the room if nobody is in it and nothing is unsaved, changes nothing otherwise, and leaves no timer of that room pending. |
| `BoardIdle.LastOutWaitsForItsSave` | apps/api/src/boards/services/board-rooms.service.ts:196-202 | The last one out of a room with unsaved changes starts a write of the whole document, and in any run the unload timer is armed only when that write is no longer outstanding. |
| `BoardTiming.EveryEditIsSavedInTime` | apps/api/src/boards/services/board-rooms.service.ts:338-366 | In every run with timers on time and no failed save, in every room not disposed of: each operation not yet encoded was accepted at most the maximum wait ago, the last change was at most the debounce ago, and a save is due before either runs out. |
| `BoardTiming.NewsStartsWaiting` | apps/api/src/boards/services/board-rooms.service.ts:166-167 | An operation accepted for the first time waits from that moment. |
| `BoardTiming.WaitingEndsInAWrite` | apps/api/src/boards/services/board-rooms.service.ts:349-357 | In every run at all, an operation stops waiting only when a write of its room that holds it is issued. |
| `BoardTiming.WhatIsNotWaitingIsOnItsWay` | apps/api/src/boards/services/board-rooms.service.ts:349-358 | When rooms also close with none of their writes outstanding, what no longer waits in the live document is in the last write issued, or in the row. |
| `BoardTiming.CalmRunsHaveItOnItsWay` | apps/api/src/boards/services/board-rooms.service.ts:349-358 | The same when the row holds the document at each closing. |
| `BoardTiming.ScheduledOnTime` | apps/api/src/boards/services/board-rooms.service.ts:338-347 | Rescheduling never moves a save past the deadline of the first unsaved change. |
| `BoardTiming.NewsIsDueAfterAPause` | apps/api/src/boards/services/board-rooms.service.ts:338-347 | After news the save is due a debounce from now, or the maximum wait from the first unsaved change if that is sooner, and never in the past. |
| `BoardTiming.SavesWaitForAPause` | apps/api/src/boards/services/board-rooms.service.ts:338-347 | In every run at all, also with late timers and failed saves: a save timer fires only when the last change is a debounce old, or the maximum wait since the room was first unsaved is over. |
| `BoardBytes.SizeIsBytesPlusArrivals` | apps/api/src/boards/services/board-rooms.service.ts:354-358 | In every run the encoded size is at most `bytes` plus what arrived during the last finished save. |
| `BoardBytes.CaughtUpRunsKeepTheCap` | apps/api/src/boards/services/board-rooms.service.ts:160-167 | While every save finishes over a document no larger than what it encoded, encoded size <= `bytes` <= the larger of the cap and the size at load. |
| `BoardBytes.QuietRunsKeepTheCap` | apps/api/src/boards/services/board-rooms.service.ts:160-167 | The same when nothing arrives during a save. |
| `BoardBytes.ArrivalsDuringASaveEscapeTheCap` | apps/api/src/boards/services/board-rooms.service.ts:73-74 | Whenever the document outgrew what a save encoded, edits within both limits take it past the cap once the save is answered. |
| `BoardBytes.CapCanBePassedExactly` | apps/api/src/boards/services/board-rooms.service.ts:354-358 | At the end of a save, document and encoding within the cap, edits can take the document past the cap if and only if it is larger than what was encoded. |
| `BoardBytes.TheCapIsExceeded` | apps/api/src/boards/services/board-rooms.service.ts:354-358 | A complete run from a cold start that ends past the cap, with `bytes` below the encoded size. |
| `BoardEviction.EvictionIsFinal` | apps/api/src/boards/services/board-rooms.service.ts:211-228 | Once evict has returned for a board that refuses joins, no continuation makes a document live or loading again or starts a save, and deleted rows stay deleted. |
| `BoardEviction.FinishSeals` | apps/api/src/boards/services/board-rooms.service.ts:215-219 | Waiting for the load in progress is what makes eviction leave nothing behind that could reinstall a room. |
| `BoardEventLoop.EventLoop` | apps/api/src/boards/services/board-rooms.service.ts:89-93 | Stretches of calls about any documents in any order: each document's part of the service is what its own calls make of it. |
| `BoardEventLoop.EachDocumentIsAMachine` | apps/api/src/boards/services/board-rooms.service.ts:89-93 | When a document's own calls are those of a machine's run, its part of the service is the machine's, whatever is called about other documents in between. |
| `BoardEventLoop.OneRoomPerDocument` | apps/api/src/boards/services/board-rooms.service.ts:250-261 | So of the room objects of one document at most one is not disposed of. |
| `BoardRoomsService.KeysAreDistinct` | apps/api/src/boards/services/board-rooms.service.ts:384 | Different documents never share a map key. |
| `BoardRoomsService.BoardRooms.RequestRoom` | apps/api/src/boards/services/board-rooms.service.ts:250-261 | Gives the live room, the running load or a new one, as the machine does, and touches no other key. |
| `BoardRoomsService.BoardRooms.FinishJoin` | apps/api/src/boards/services/board-rooms.service.ts:140-148 | Cancels the stored unload handle, adds the socket, and takes the snapshot in the same stretch. |
| `BoardRoomsService.BoardRooms.ApplyUpdate` | apps/api/src/boards/services/board-rooms.service.ts:152-168 | Ignores strangers, refuses what exceeds either cap without changing anything, and otherwise merges; what is relayed is exactly what was new. |
| `BoardRoomsService.BoardRooms.ApplyAwareness` | apps/api/src/boards/services/board-rooms.service.ts:170-179 | Applies a change only for a socket in the room and within the size limit; then added and updated ids are shown, removed ones are not, and all others are as they were. |
| `BoardRoomsService.BoardRooms.ShowPresence` | apps/api/src/boards/services/board-rooms.service.ts:311-316 | Added and updated ids are shown and removed ones are not; only a socket still in the room has its claims changed. |
| `BoardRoomsService.BoardRooms.ExpireStates` | apps/api/src/boards/services/board-rooms.service.ts:310-316 | States that time out go without anybody's claims changing. |
| `BoardRoomsService.BoardRooms.BeginLeave` | apps/api/src/boards/services/board-rooms.service.ts:187-197 | Drops the socket with its cursors, and for the last one out encodes what must be written. |
| `BoardRoomsService.BoardRooms.FinishLeave` | apps/api/src/boards/services/board-rooms.service.ts:198-201 | Overwrites the unload handle, whatever it held. |
| `BoardRoomsService.BoardRooms.FinishLoad` | apps/api/src/boards/services/board-rooms.service.ts:269-334 | No room for an unseeded document without a row; otherwise a fresh room under its key, a seeded one dirty and scheduled. |
| `BoardRoomsService.BoardRooms.SettleLoad` | apps/api/src/boards/services/board-rooms.service.ts:257 | Forgets the load and nothing else. |
| `BoardRoomsService.BoardRooms.ScheduleSave` | apps/api/src/boards/services/board-rooms.service.ts:338-347 | Keeps the first unsaved moment and rearms the timer for the earlier of a debounce from now and the maximum wait from that moment. |
| `BoardRoomsService.BoardRooms.BeginSave` | apps/api/src/boards/services/board-rooms.service.ts:350-355 | A dirty room becomes clean and its document is what will be written; a clean one writes nothing. |
| `BoardRoomsService.BoardRooms.SaveSucceeded` | apps/api/src/boards/services/board-rooms.service.ts:358 | Sets `bytes` to the size that was written. |
| `BoardRoomsService.BoardRooms.SaveFailed` | apps/api/src/boards/services/board-rooms.service.ts:364 | Marks the room unsaved, keeping an earlier mark. |
| `BoardRoomsService.BoardRooms.Unload` | apps/api/src/boards/services/board-rooms.service.ts:368-372 | Closes an empty clean room and deletes by key, whichever room the key holds. |
| `BoardRoomsService.BoardRooms.EvictKey` | apps/api/src/boards/services/board-rooms.service.ts:216-220 | Removes and disposes the live room of one document, if there is one. |
| `BoardRoomsService.BoardRooms.Joined` | apps/api/src/boards/services/board-rooms.service.ts:240-247 | The live room exactly when the socket is in it. |
| `BoardRoomsService.BoardRooms.Merge` | apps/api/src/boards/services/board-rooms.service.ts:293-302 | Merging what is not news changes only the byte count; news grows the document, is relayed and schedules a save. |
| `BoardRoomsService.BoardRooms.DropSocket` | apps/api/src/boards/services/board-rooms.service.ts:188-194 | The socket, its claims and its cursors go together. |
| `BoardRoomsService.BoardRooms.Dispose` | apps/api/src/boards/services/board-rooms.service.ts:374-379 | The room is marked gone and can no longer be saved by its timer. |
| `BoardsGateway.RoomsAreDistinct` | apps/api/src/boards/gateways/boards.gateway.ts:48-49 | No two documents share a Socket.IO room. |
| `BoardsGateway.Gateway.Subscribe` | apps/api/src/boards/gateways/boards.gateway.ts:142 | The socket joins the document's Socket.IO room before anything is loaded; no other document notices. |
| `BoardsGateway.Gateway.AskForRoom` | apps/api/src/boards/gateways/boards.gateway.ts:143-144 | The code document is listed in the socket's data before it has opened, the project is not. |
| `BoardsGateway.Gateway.FinishOpen` | apps/api/src/boards/gateways/boards.gateway.ts:194-200 | A project nobody started is left again; one that opened is listed now. |
| `BoardsGateway.Gateway.BeginLeave` | apps/api/src/boards/gateways/boards.gateway.ts:157-162 | Leaves only what the socket lists; after this stretch the socket neither lists the document nor hears it. |
| `BoardsGateway.Gateway.Target` | apps/api/src/boards/gateways/boards.gateway.ts:304-311 | An update reaches a board only with a binary payload and through a code the socket lists. |
| `BoardsGateway.Gateway.Broadcast` | apps/api/src/boards/gateways/boards.gateway.ts:91-97 | Everyone subscribed to the document hears it except the origin. |
| `Seats.RequestsHappenAtOnce` | apps/api/src/boards/repositories/boards.repository.ts:61-86 | Whatever the interleaving of statements, aborts and deletions, the requests done whole one at a time leave the same boards with the same answers, and every answer given is among them. |
| `Seats.NeverOverfullNeverTwice` | apps/api/src/boards/repositories/boards.repository.ts:57-86 | No board ever has more members than seats, and nobody is seated twice, without help from the unique index. |
| `Seats.StepRefines` | apps/api/src/boards/repositories/boards.repository.ts:63-85 | Each statement either leaves the committed boards alone or does exactly the request it stands for. |
| `Seats.AnswersAreRight` | apps/api/src/boards/repositories/boards.repository.ts:61-86 | In every run, each answer was right for the committed board at some instant: already a member if and only if the user had a row, also on a full board; full if and only if they had none and no seat was free; added if and only if they had none and one was, and then exactly that row is new. |
| `Seats.MembersAreThoseSeated` | apps/api/src/boards/repositories/boards.repository.ts:41-86 | A user's rows on a board are what the requests of the run add up to: one for its host, one for each time added, less one for each removal. |
| `Seats.BoardsRepository.CreateWithHost` | apps/api/src/boards/repositories/boards.repository.ts:41-51 | A new board seats its host and nobody else. |
| `Seats.BoardsRepository.AddMember` | apps/api/src/boards/repositories/boards.repository.ts:61-86 | Done alone, over members and seats: already a member also on a full board, full when no seat is free, seated with one row more, or refused because the board is gone. |
| `ChatGuard.ForgettingIsHarmless` | apps/api/src/boards/gateways/boards.gateway.ts:326-334 | The list that forgets old sends always counts what a list of all sends would, and sends stay spaced. |
| `ChatGuard.NeverAFlood` | apps/api/src/boards/gateways/boards.gateway.ts:326-334 | Over the whole connection, a send and the one BOARD_CHAT_BURST sends before it are at least BOARD_CHAT_WINDOW_MS apart. |
| `ChatGuard.RefusedExactly` | apps/api/src/boards/gateways/boards.gateway.ts:331 | A message is refused if and only if BOARD_CHAT_BURST messages got through within the window before it. |
| `ChatGuard.SocketData.AllowChat` | apps/api/src/boards/gateways/boards.gateway.ts:326-334 | One call: the answer, the list kept, and the history it stands for. |
| `ExpirySweep.BoardExpiryService.DeleteExpired` | apps/api/src/boards/services/board-expiry.service.ts:34-47 | Ends for any number of boards; of those there at the start exactly the ones with expiresAt <= now are gone, each evicted before its deletion; returns their number; asks once per full batch and once more, also after an exact multiple. |
| `ExpirySweep.BoardExpiryService.FindExpiredIds` | apps/api/src/boards/repositories/boards.repository.ts:114-122 | The oldest due boards up to the limit, oldest first, without repetition. |
| `ExpirySweep.BoardExpiryService.SweepBatch` | apps/api/src/boards/services/board-expiry.service.ts:41-42 | Every board of a batch is evicted before the batch is deleted, and boards created meanwhile stay. |
| `ExpirySweep.BoardExpiryService.DeleteByIds` | apps/api/src/boards/repositories/boards.repository.ts:125-128 | Deletes the boards named and no other. |
| `RateLimiter.Redis.Increment` | apps/api/src/rate-limiter/rate-limiter.service.ts:18-54 | The script on the two keys: the new counter and block, the times it reports, and that no other key changes. |
| `RateLimiter.WindowBound` | apps/api/src/rate-limiter/rate-limiter.service.ts:26-53 | With blockDuration >= ttl any ttl milliseconds hold at most 2 * limit - 1 unblocked answers for a key. |
| `RateLimiter.BoundIsReached` | apps/api/src/rate-limiter/rate-limiter.service.ts:26-53 | The bound is reached, for every limit. |
| `RateLimiter.WindowBoundExactly` | apps/api/src/rate-limiter/rate-limiter.service.ts:26-53 | Every window of every run keeps the bound if and only if blockDuration >= ttl. |
| `RateLimiter.ShortBlocksBreakTheBound` | apps/api/src/rate-limiter/rate-limiter.service.ts:46-51 | With a shorter block the reset branch lets 2 * limit calls through inside one window. |
| `RateLimiter.OneLifeGrantsItsLimit` | apps/api/src/rate-limiter/rate-limiter.service.ts:26-44 | From the call that creates or resets a counter until it expires or is reset, at most `limit` calls are let through, that call included. |
| `RateLimiter.OneLifeReachesItsLimit` | apps/api/src/rate-limiter/rate-limiter.service.ts:26-44 | And `limit` calls are, when nothing is blocked. |
| `RateLimiter.GoingOverBlocks` | apps/api/src/rate-limiter/rate-limiter.service.ts:40-44 | The call that exceeds the limit blocks every call before the block's expiry. |
| `RateLimiter.BlockHolds` | apps/api/src/rate-limiter/rate-limiter.service.ts:37-51 | No call while a block is on changes or outlasts it, and the call at its very expiry resets the counter. |
| `BlockRecords.RecordsAgree` | apps/api/src/admin-security/admin-security.service.ts:121-189 | After any operations of the guard and the admins, the two block keys of an IP live until the same moment or are both gone, a live block is indexed, its details name the second it ends, and an IP is whitelisted exactly when it has a note. |
| `BlockRecords.GuardRefinesOneExpiry` | apps/api/src/rate-limiter/audited-throttler.guard.ts:91-124 | The guard refuses exactly when a single expiry per IP, kept by the plain operations, would. |
| `BlockRecords.ListingIsExact` | apps/api/src/admin-security/admin-security.service.ts:77-104 | The admin's listing contains an IP if and only if its block is in force. |
| `BlockRecords.StrikesCount` | apps/api/src/rate-limiter/audited-throttler.guard.ts:144-149 | Fewer strikes than the limit within a block's length of the first only count. |
| `BlockRecords.EnoughStrikesBlock` | apps/api/src/rate-limiter/audited-throttler.guard.ts:144-175 | The strike that reaches the limit, and none before it, blocks the IP for the whole duration and starts the count over. |
| `BlockRecords.ChangeBreaksTheSum` | apps/api/src/admin-security/admin-security.service.ts:28 | After a change of duration, blockedAt + blockDuration is expiresAt if and only if the change fell in the second of the block. |
| `BlockRecords.ChangedBlockExample` | apps/api/src/admin-security/admin-security.service.ts:166-189 | A one-minute block changed to two minutes after ten seconds: 120 against 130. |
| `BlockRecords.BlockStore.CanActivate` | apps/api/src/rate-limiter/audited-throttler.guard.ts:91-124 | Refused if and only if not whitelisted and either block key is live. |
| `BlockRecords.BlockStore.ThrowThrottlingException` | apps/api/src/rate-limiter/audited-throttler.guard.ts:133-175 | One strike, or the block with all three records and the counter gone; no other IP is touched. |
| `BlockRecords.BlockStore.ManualBlockIp` | apps/api/src/admin-security/admin-security.service.ts:121-151 | All three records with one expiry, whatever was there before; strikes and the whitelist stay. |
| `BlockRecords.BlockStore.RemoveIpBlock` | apps/api/src/admin-security/admin-security.service.ts:153-164 | No record, index entry or strike is left, and the IP is let in; the whitelist stays. |
| `BlockRecords.BlockStore.UpdateBlockDuration` | apps/api/src/admin-security/admin-security.service.ts:166-189 | Nothing without a live block; otherwise both keys move to the new expiry together. |
| `BlockRecords.BlockStore.HardBlockEntry` | apps/api/src/admin-security/admin-security.service.ts:106-119 | Found exactly while the details key lives; the remaining seconds are rounded up. |
| `BlockRecords.BlockStore.GetHardBlockedIps` | apps/api/src/admin-security/admin-security.service.ts:77-104 | The listing equals the pruned index, each entry as read at that moment. |
| `BlockRecords.BlockStore.PruneExpiredBlockIndex` | apps/api/src/admin-security/admin-security.service.ts:274-291 | The index keeps exactly the IPs whose details are live. |
| `BlockRecords.BlockStore.AddIpWhitelist` | apps/api/src/admin-security/admin-security.service.ts:234-244 | Note and set entry together; a whitelisted IP is never refused. |
| `BlockRecords.BlockStore.RemoveIpWhitelist` | apps/api/src/admin-security/admin-security.service.ts:257-262 | Note and set entry go together; a block in force applies again. |
| `BlockRecords.BlockStore.GetWhitelistedIps` | apps/api/src/admin-security/admin-security.service.ts:195-222 | The listing equals the set pruned of addresses without a note, each with its note. |
| `SearchEscaping.EscapedTermMatchesLiterally` | apps/api/src/search/search.service.ts:33-35 | For all strings, LIKE with the escaped term between two % matches exactly the strings that contain the term; the pattern is never malformed. |
| `SearchEscaping.EscapedTermMatchesIgnoringCase` | apps/api/src/blogs/blogs.repository.ts:94-101 | The same for ILIKE over folded strings; a character may fold to several. |
| `SearchEscaping.EscapedTermParses` | apps/api/src/search/search.service.ts:33-35 | The escaped term reads back as the term's own characters. |
| `SearchEscaping.UnescapedIsFaithfulExactlyWhenPlain` | apps/api/src/search/search.service.ts:26-31 | Without escaping, a term searches for itself if and only if it has no special character. |
| `UniqueNames.UniqueName` | apps/api/src/utils/unique-name.util.ts:13-28 | The trimmed request when free; otherwise, below 2^53, "root (n)" with the least free n after the request's own number, or from 2 when it has none; no result only where no number is ever free. |
| `UniqueNames.SmallestFreeNumber` | apps/api/src/utils/unique-name.util.ts:25-27 | While the numbers needed stay within 2^53 the loop ends, at the smallest free number from its start, after at most as many steps as there are taken names. |
| `UniqueNames.EndsForEveryList` | apps/api/src/utils/unique-name.util.ts:25-26 | So the loop ends for every list of names while the start plus their number stays within 2^53. |
| `UniqueNames.NeverFreeExactly` | apps/api/src/utils/unique-name.util.ts:26 | Exactly when the loop never ends, for any start. |
| `UniqueNames.LargestNumberNeverEnds` | apps/api/src/utils/unique-name.util.ts:25-26 | The failing input: a taken name numbered 2^53 asked for again. |
| `UniqueNames.ResultIsUniqueExactly` | apps/api/src/utils/unique-name.util.ts:17-27 | The result collides, trimmed and ignoring case, if and only if the request is blank while a blank name and "(2)" are both taken. |
| `UniqueNames.SuffixIsReplaced` | apps/api/src/utils/unique-name.util.ts:23-27 | A suffix on the request is replaced by the new number, not stacked. |
| `UniqueNames.NextNumberWhenFree` | apps/api/src/utils/unique-name.util.ts:23-27 | "Logo (2)" asked for again becomes "Logo (3)" whenever that is free, for every name and number. |
| `UniqueNames.TrimStripsSpace` | apps/api/src/utils/unique-name.util.ts:18-20 | Trimming takes away white space at the two ends and nothing else. |
| `UniqueNames.PatternIsFound` | apps/api/src/utils/unique-name.util.ts:23 | Whatever the pattern matches is split at the place the pattern says, so in one way only. |
| `UniqueNames.FoundIsPattern` | apps/api/src/utils/unique-name.util.ts:23 | Whatever is split is a match of the pattern. |
| `UniqueNames.CandidatesDiffer` | apps/api/src/utils/unique-name.util.ts:26 | Different numbers up to 2^53 make different names. |
| `JsNumbers.RoundIsDouble` | apps/api/src/utils/unique-name.util.ts:25 | Rounding a number read from digits gives a double. |
| `JsNumbers.RoundIsNearest` | apps/api/src/utils/unique-name.util.ts:25 | To the nearest multiple of the spacing of doubles there, and from halfway to the even one. |
| `JsNumbers.LargeNumbersStick` | apps/api/src/utils/unique-name.util.ts:26 | From 2^53 on, counting up changes a number at most once. |
| `TemplateCache.AnswersAreRecent` | apps/api/src/mailer/email-template.service.ts:113-128 | Every answer was the stored row at an instant less than TEMPLATE_CACHE_TTL_MS plus the duration of its load earlier. |
| `TemplateCache.LookupHitsExactly` | apps/api/src/mailer/email-template.service.ts:117-121 | In every run a lookup is answered from the cache at once if and only if its entry was stored less than TEMPLATE_CACHE_TTL_MS ago; otherwise it starts a load. |
| `TemplateCache.LoadedRowIsAnswered` | apps/api/src/mailer/email-template.service.ts:117-127 | A loaded row is what every lookup is answered with for the whole TTL, unless it is forgotten or loaded again. |
| `TemplateCache.UpdateIsSeenExactly` | apps/api/src/mailer/email-template.service.ts:161-173 | After an update's last stretch this instance answers with its row or a newer one for good, if and only if no load is on its way with an older row. |
| `TemplateCache.StraddlingLoadHidesAnUpdate` | apps/api/src/mailer/email-template.service.ts:113-128 | The failing case: a load across the update puts the old row back and the next lookup answers with it. |
| `TemplateCache.EmailTemplateService.Lookup` | apps/api/src/mailer/email-template.service.ts:117-121 | A hit is answered only before it expires. |
| `TemplateCache.EmailTemplateService.FinishLoad` | apps/api/src/mailer/email-template.service.ts:122-127 | The loaded row is answered and kept for the TTL from now; other keys are untouched. |
| `TemplateCache.EmailTemplateService.Invalidate` | apps/api/src/mailer/email-template.service.ts:171 | The entry of the updated email goes, no other. |
| `TemplateCache.EmailTemplateService.Clear` | apps/api/src/mailer/email-template.service.ts:71 | Every entry goes. |

## Left out

- Shutdown (`onModuleDestroy`), authentication, feature flags, parsing of codes and payloads, audit events, logging and error texts.
- What a seeded document contains, Yjs's pending structures and merge order, and the bytes of the wire format.
- Delivery by Socket.IO: an emit counts as heard, in order, by everyone subscribed.
- That every id in `room.sockets` is connected: an open suspended across a disconnect leaves one behind.
- Two instances of the API sharing a board, which the service's own comment rules out.
- A sweep whose delete fails, and two sweeps at once: the next hour's sweep starts over.
- `RateLimiter.Redis.Increment`: the times are in milliseconds; `increment` rounds them up to seconds afterwards, and a change of limits between calls is not modelled.
- A block duration or window of zero, which Redis refuses as an expiry.
- Interleaved pruning of the block index, whose read and removal are separate requests, and stored details that do not parse.
- `SearchEscaping.EscapedTermMatchesIgnoringCase`: folding goes character by character, leaves the three special characters alone and makes no others.
- `UniqueNames.UniqueName`: returns no result where the loop would not end; lower-casing that depends on neighbouring characters (the Greek final sigma) is not modelled.
- The provider timeout and grouping in search, and every CRUD service: single-branch facts.
- The order of the whitelist's listing (newest first), and bulk additions.
- The notice an eviction sends to the sockets of a board; `EvictKey` says when there is one to send.
- `TemplateCache.AnswersAreRecent`: one key at a time; which emails exist and the choice between missing, switched-off and usable templates are left to the caller.
- The user interface, the operations console, migrations, presenters and data transfer objects.
