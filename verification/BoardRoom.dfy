/**
 One live room: a board document held in memory together with its sockets,
 presence and save bookkeeping. Every function here is one stretch of
 `board-rooms.service.ts` that runs without an `await`, as far as it concerns
 a single room.

 Yjs is reduced to a small contract. A document is a growing set of
 operations with an encoded size; applying an update is set union; the size
 after a merge is chosen by Yjs, but is at most the old size plus the update's
 bytes. The `update` event fires only when something new was merged.
*/
module BoardRoom {
  import opened Prelude

  type SocketId = string
  type ClientId = nat
  type TimerId = nat
  type Op = nat

  const MAX_UPDATE_BYTES: nat := 256 * 1024
  const MAX_DOC_BYTES: nat := 4 * 1024 * 1024
  const SAVE_DEBOUNCE_MS: nat := 2000
  const SAVE_MAX_WAIT_MS: nat := 10000
  const IDLE_UNLOAD_MS: nat := 60000

  /** A Yjs document: the operations merged so far and the size of its encoding. */
  datatype Doc = Doc(ops: set<Op>, size: nat)

  datatype Update = Update(ops: set<Op>, bytes: nat)

  /** What y-protocols reports to the awareness listener. */
  datatype PresenceChange = PresenceChange(added: set<ClientId>, updated: set<ClientId>, removed: set<ClientId>)

  datatype Room = Room(
    doc: Doc,
    presence: set<ClientId>,
    sockets: set<SocketId>,
    clients: map<SocketId, set<ClientId>>,
    bytes: nat,
    dirtySince: Option<nat>,
    // When the pending save timer is due; `None` when no save is scheduled.
    saveTimer: Option<nat>,
    // The last handle stored; the timer behind it may have fired already.
    unloadTimer: Option<TimerId>,
    disposed: bool)

  function Merge(doc: Doc, update: Update, size: nat): Doc {
    if update.ops <= doc.ops then doc else Doc(doc.ops + update.ops, size)
  }

  function SaveDelay(since: nat, now: nat): nat {
    Min(SAVE_DEBOUNCE_MS, Max(0, since + SAVE_MAX_WAIT_MS - now))
  }

  function ScheduleSave(room: Room, now: nat): Room {
    var since := if room.dirtySince.Some? then room.dirtySince.value else now;
    room.(dirtySince := Some(since), saveTimer := Some(now + SaveDelay(since, now)))
  }

  /** A room fresh from `load`; a seeded one starts dirty with a save scheduled. */
  function NewRoom(doc: Doc, seeded: bool, now: nat): Room {
    var room := Room(doc, {}, {}, map[], doc.size, if seeded then Some(now) else None, None, None, false);
    if seeded then ScheduleSave(room, now) else room
  }

  function Join(room: Room, socket: SocketId): Room {
    room.(unloadTimer := None, sockets := room.sockets + {socket})
  }

  predicate TooLarge(room: Room, update: Update) {
    update.bytes > MAX_UPDATE_BYTES || room.bytes + update.bytes > MAX_DOC_BYTES
  }

  function Accept(room: Room, update: Update, size: nat, now: nat): Room {
    var merged := room.(bytes := room.bytes + update.bytes, doc := Merge(room.doc, update, size));
    if update.ops <= room.doc.ops then merged else ScheduleSave(merged, now)
  }

  /** The ids a socket speaks for. */
  function Owned(room: Room, socket: SocketId): set<ClientId> {
    if socket in room.clients then room.clients[socket] else {}
  }

  /** What y-protocols promises of a change to the states in the room. */
  predicate Classified(room: Room, change: PresenceChange) {
    && change.added !! room.presence
    && change.removed !! change.added
    && change.removed !! change.updated
    && change.added !! change.updated
  }

  /** An awareness change whose origin is `socket`, with the listener's bookkeeping. */
  function ChangePresence(room: Room, socket: SocketId, change: PresenceChange): Room {
    var shown := room.(presence := room.presence - change.removed + change.added + change.updated);
    if socket in room.sockets
    then shown.(clients := room.clients[socket := Owned(room, socket) + change.added - change.removed])
    else shown
  }

  /** y-protocols drops states nobody has refreshed; the origin is not a socket. */
  function ExpirePresence(room: Room, ids: set<ClientId>): Room {
    room.(presence := room.presence - ids)
  }

  /** The synchronous first half of `leave`. */
  function Drop(room: Room, socket: SocketId): Room {
    room.(sockets := room.sockets - {socket},
          clients := room.clients - {socket},
          presence := room.presence - Owned(room, socket))
  }

  /** The synchronous first half of `save`: a dirty room becomes clean and its state is encoded. */
  function Encode(room: Room): Room {
    room.(saveTimer := None, dirtySince := None)
  }

  /** `save` up to its `await`, as the room sees it. */
  function SaveStart(room: Room): Room {
    if room.dirtySince.Some? then Encode(room) else room.(saveTimer := None)
  }

  /** A room whose last socket has just left starts a save. */
  function LastOut(room: Room): Room {
    if room.sockets == {} then SaveStart(room) else room
  }

  function Saved(room: Room, size: nat): Room {
    room.(bytes := size)
  }

  function SaveFailed(room: Room, now: nat): Room {
    room.(dirtySince := if room.dirtySince.Some? then room.dirtySince else Some(now))
  }

  function Dispose(room: Room): Room {
    room.(saveTimer := None, disposed := true)
  }

  predicate Unloadable(room: Room) {
    room.sockets == {} && room.dirtySince.None?
  }
}
