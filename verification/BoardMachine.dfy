/**
 The life of one board document as a state machine. Each step is one stretch
 of `board-rooms.service.ts` or `boards.gateway.ts` between two `await`s, one
 event of the database, or one timer firing; steps interleave freely. A board
 has two documents, and keys of different documents never meet, so one
 document is the unit of interleaving (BoardEviction puts the two together).
*/
module BoardMachine {
  import opened Prelude
  import opened BoardRoom

  type RoomId = nat
  type LoadId = nat
  type WriteId = nat
  type LeaveId = nat

  /** The code document is seeded on first open; the sandbox has no seed. */
  datatype Kind = Code | Sandbox

  /** The service's own memory: every room object made so far, and what the two maps hold for this key. */
  datatype Service = Service(heap: map<RoomId, Room>, live: Option<RoomId>, loading: Option<LoadId>)

  datatype LoadResult = Loaded(room: RoomId) | Nothing | Failed

  datatype Load = Reading | Got(stored: Option<Doc>) | Done(result: LoadResult)

  /** What the promise returned by `room()` will resolve to. */
  datatype Waiting = OnRoom(room: RoomId) | OnLoad(load: LoadId)

  /** Where one socket stands with this document in the gateway. */
  datatype Phase = Closed | Subscribed | Opening(on: Waiting) | Open(room: RoomId) | Leaving

  /** A save whose database write has been issued; `arrived` counts the bytes accepted since it was encoded. */
  datatype Write = Write(id: WriteId, room: RoomId, doc: Doc, committed: bool, arrived: nat)

  /** A `leave` suspended in `save`; `write` is what it waits for, if the room was dirty. */
  datatype PendingLeave = PendingLeave(room: RoomId, write: Option<WriteId>)

  datatype UnloadTimer = UnloadTimer(room: RoomId, due: nat)

  /** `evict` waits for the load it found; a sweep whose delete failed evicts again an hour later. */
  datatype Eviction = NotEvicted | Awaiting(load: Option<LoadId>, again: bool) | Evicted {
    predicate Happened() {
      Evicted? || (Awaiting? && again)
    }
  }

  /**
   History kept beside a room for the properties only: the bytes that arrived
   during the last finished save, the encoded size at load, the last time a
   save was scheduled, and when each operation not yet encoded was accepted.
  */
  datatype Track = Track(debt: nat, loadedSize: nat, lastChange: nat, unsaved: map<Op, nat>)

  /** The document's table: the writes issued and not yet answered, and the row. */
  datatype Database = Database(writes: seq<Write>, store: Option<Doc>, deleted: bool)

  function Ops(doc: Option<Doc>): set<Op> {
    if doc.Some? then doc.value.ops else {}
  }

  /** The gateway: phases, Socket.IO room members, and the sockets whose `client.data` lists the document. */
  datatype Gate = Gate(phases: map<SocketId, Phase>, subscribers: set<SocketId>, registered: set<SocketId>)

  /**
   For the properties only: what each socket was sent or contributed since it
   last subscribed, and every edit accepted.
  */
  datatype History = History(known: map<SocketId, set<Op>>, accepted: set<Op>, tracks: map<RoomId, Track>)

  datatype State = State(
    kind: Kind,
    now: nat,
    svc: Service,
    loads: map<LoadId, Load>,
    timers: map<TimerId, UnloadTimer>,
    leaves: map<LeaveId, PendingLeave>,
    db: Database,
    eviction: Eviction,
    gate: Gate,
    hist: History)

  /** The gateway and the socket handlers behind it. */
  datatype SessionStep =
    | Subscribe(socket: SocketId)
    | RequestRoom(socket: SocketId, newLoad: LoadId)
    | JoinFinish(socket: SocketId)
    | Unsubscribe(socket: SocketId)
    | LeaveStart(socket: SocketId, newLeave: LeaveId, newWrite: WriteId)
    | LeaveFinish(leave: LeaveId, newTimer: TimerId)

  datatype LoadStep =
    | LoadRead(load: LoadId)
    | LoadFail(load: LoadId)
    | LoadFinish(load: LoadId, newRoom: RoomId, doc: Doc)
    | LoadSettle(load: LoadId)

  datatype EditStep =
    | Edit(socket: SocketId, update: Update, size: nat)
    | Presence(socket: SocketId, bytes: nat, change: PresenceChange)
    | PresenceTimeout(room: RoomId, ids: set<ClientId>)

  datatype SaveStep =
    | SaveTimerFires(room: RoomId, newWrite: WriteId)
    | Commit(index: nat)
    | SaveOk(index: nat)
    | SaveFail(index: nat)

  /** Time, unloading, eviction, and the writes other services make. */
  datatype LifeStep =
    | Tick(elapsed: nat)
    | UnloadTimerFires(timer: TimerId)
    | EvictStart
    | EvictFinish
    | DeleteBoard
    | StartProject(doc: Doc)

  datatype Step =
    | Session(session: SessionStep)
    | Loading(load: LoadStep)
    | Change(edit: EditStep)
    | Saving(save: SaveStep)
    | Life(life: LifeStep)

  function Start(kind: Kind): State {
    State(kind, 0, Service(map[], None, None), map[], map[], map[], Database([], None, false), NotEvicted,
          Gate(map[], {}, {}), History(map[], {}, map[]))
  }

  // ---- The service's methods, one key at a time ----

  function With(svc: Service, id: RoomId, room: Room): Service {
    svc.(heap := svc.heap[id := room])
  }

  /** `room()`: the live room, the load already running, or a new load. */
  function Request(svc: Service, newLoad: LoadId): (Service, Waiting) {
    if svc.live.Some? then (svc, OnRoom(svc.live.value))
    else if svc.loading.Some? then (svc, OnLoad(svc.loading.value))
    else (svc.(loading := Some(newLoad)), OnLoad(newLoad))
  }

  /** `joined()`: the live room, if the socket is in it. */
  function Current(svc: Service, socket: SocketId): Option<RoomId> {
    if svc.live.Some? && svc.live.value in svc.heap && socket in svc.heap[svc.live.value].sockets
    then svc.live else None
  }

  function Enter(svc: Service, id: RoomId, socket: SocketId): Service
    requires id in svc.heap
  {
    With(svc, id, Join(svc.heap[id], socket))
  }

  function Install(svc: Service, id: RoomId, room: Room): Service {
    With(svc, id, room).(live := Some(id))
  }

  /** `unload`: an empty clean room is disposed, and the key is deleted whatever it holds. */
  function Unload(svc: Service, id: RoomId): Service
    requires id in svc.heap
  {
    if !Unloadable(svc.heap[id]) then svc
    else With(svc, id, Dispose(svc.heap[id])).(live := None)
  }

  /** The part of `evict` after its `await`. */
  function Evict(svc: Service): Service {
    if svc.live.Some? && svc.live.value in svc.heap
    then With(svc, svc.live.value, Dispose(svc.heap[svc.live.value])).(live := None)
    else svc
  }

  // ---- Steps on the whole state ----

  function Cancel(timers: map<TimerId, UnloadTimer>, handle: Option<TimerId>): map<TimerId, UnloadTimer> {
    if handle.Some? then timers - {handle.value} else timers
  }

  predicate InFlight(db: Database, write: WriteId) {
    exists i | 0 <= i < |db.writes| :: db.writes[i].id == write
  }

  function Issue(db: Database, id: RoomId, room: Room, newWrite: WriteId): Database {
    if room.dirtySince.None? then db
    else db.(writes := db.writes + [Write(newWrite, id, room.doc, false, 0)])
  }

  function Encoded(hist: History, id: RoomId, room: Room): History
    requires id in hist.tracks
  {
    if room.dirtySince.None? then hist
    else hist.(tracks := hist.tracks[id := hist.tracks[id].(unsaved := map[])])
  }

  function AfterSaveStart(s: State, id: RoomId, newWrite: WriteId): State
    requires id in s.svc.heap && id in s.hist.tracks
  {
    var room := s.svc.heap[id];
    s.(svc := With(s.svc, id, SaveStart(room)),
       db := Issue(s.db, id, room, newWrite),
       hist := Encoded(s.hist, id, room))
  }

  function AfterSubscribe(s: State, k: SocketId): State {
    s.(gate := s.gate.(phases := s.gate.phases[k := Subscribed], subscribers := s.gate.subscribers + {k}),
       hist := s.hist.(known := s.hist.known[k := {}]))
  }

  function AfterUnsubscribe(s: State, k: SocketId): State {
    s.(gate := Gate(s.gate.phases[k := Leaving], s.gate.subscribers - {k}, s.gate.registered - {k}))
  }

  function StartLoad(svc: Service, loads: map<LoadId, Load>, newLoad: LoadId): map<LoadId, Load> {
    if svc.live.Some? || svc.loading.Some? then loads else loads[newLoad := Reading]
  }

  /** `client.data.boards` is filled before the join, `client.data.sandboxes` after it. */
  function Opens(gate: Gate, kind: Kind, socket: SocketId, waiting: Waiting): Gate {
    gate.(phases := gate.phases[socket := Opening(waiting)],
          registered := if kind.Code? then gate.registered + {socket} else gate.registered)
  }

  function AfterRequest(s: State, socket: SocketId, newLoad: LoadId): State {
    s.(svc := Request(s.svc, newLoad).0,
       loads := StartLoad(s.svc, s.loads, newLoad),
       gate := Opens(s.gate, s.kind, socket, Request(s.svc, newLoad).1))
  }

  function Since(ops: set<Op>, now: nat): map<Op, nat> {
    map op | op in ops :: now
  }

  function NewTrack(doc: Doc, seeded: bool, now: nat): Track {
    Track(0, doc.size, now, if seeded then Since(doc.ops, now) else map[])
  }

  /** A room project nobody has started, and nothing seeds. */
  predicate Unstarted(kind: Kind, stored: Option<Doc>) {
    stored.None? && kind.Sandbox?
  }

  function Outcome(kind: Kind, stored: Option<Doc>, newRoom: RoomId): LoadResult {
    if Unstarted(kind, stored) then Nothing else Loaded(newRoom)
  }

  function AfterLoad(s: State, load: LoadId, newRoom: RoomId, doc: Doc): State
    requires load in s.loads && s.loads[load].Got?
  {
    var stored := s.loads[load].stored;
    var loaded := s.(loads := s.loads[load := Done(Outcome(s.kind, stored, newRoom))]);
    if Unstarted(s.kind, stored) then loaded
    else loaded.(svc := Install(s.svc, newRoom, NewRoom(doc, stored.None?, s.now)),
                 hist := s.hist.(accepted := s.hist.accepted + doc.ops,
                                 tracks := s.hist.tracks[newRoom := NewTrack(doc, stored.None?, s.now)]))
  }

  /** What the promise a joining socket awaits has resolved to. */
  function Resolved(svc: Service, loads: map<LoadId, Load>, waiting: Waiting): Option<LoadResult> {
    match waiting
    case OnRoom(id) => Some(Loaded(id))
    case OnLoad(l) => if l in loads && loads[l].Done? && svc.loading != Some(l) then Some(loads[l].result) else None
  }

  function Joins(gate: Gate, socket: SocketId, result: LoadResult): Gate {
    match result
    case Loaded(id) => gate.(phases := gate.phases[socket := Open(id)], registered := gate.registered + {socket})
    case Nothing => gate.(phases := gate.phases[socket := Closed], subscribers := gate.subscribers - {socket})
    case Failed => gate.(phases := gate.phases[socket := Closed])
  }

  function AfterJoin(s: State, socket: SocketId, result: LoadResult): State
    requires socket in s.hist.known
    requires result.Loaded? ==> result.room in s.svc.heap
  {
    var joined := s.(gate := Joins(s.gate, socket, result));
    if !result.Loaded? then joined
    else
      var room := s.svc.heap[result.room];
      joined.(svc := Enter(s.svc, result.room, socket),
              timers := Cancel(s.timers, room.unloadTimer),
              hist := s.hist.(known := s.hist.known[socket := s.hist.known[socket] + room.doc.ops]))
  }

  /** Relay to every subscriber but the origin; the origin already has its own edit. */
  function Relay(known: map<SocketId, set<Op>>, subscribers: set<SocketId>, origin: SocketId,
                 ops: set<Op>, delta: set<Op>)
    : map<SocketId, set<Op>>
  {
    map t | t in known :: known[t] + (if t == origin then ops else if t in subscribers then delta else {})
  }

  function Arrive(writes: seq<Write>, id: RoomId, bytes: nat): (r: seq<Write>)
    ensures |r| == |writes|
    ensures forall i | 0 <= i < |r| ::
              r[i] == if writes[i].room == id then writes[i].(arrived := writes[i].arrived + bytes) else writes[i]
  {
    if writes == [] then []
    else
      var w := writes[0];
      [if w.room == id then w.(arrived := w.arrived + bytes) else w] + Arrive(writes[1..], id, bytes)
  }

  function Stamp(track: Track, delta: set<Op>, now: nat): Track {
    if delta == {} then track
    else track.(lastChange := now, unsaved := track.unsaved + Since(delta, now))
  }

  /** The room an edit from `socket` is applied to, unless it is dropped or refused. */
  function Admits(svc: Service, gate: Gate, socket: SocketId, update: Update): Option<RoomId> {
    var id := Current(svc, socket);
    if socket !in gate.registered || id.None? || TooLarge(svc.heap[id.value], update) then None else id
  }

  function AfterEdit(s: State, socket: SocketId, update: Update, size: nat): State
    requires s.svc.live.Some? ==> s.svc.live.value in s.hist.tracks
  {
    var at := Admits(s.svc, s.gate, socket, update);
    if at.None? then s
    else
      var room := s.svc.heap[at.value];
      var delta := update.ops - room.doc.ops;
      s.(svc := With(s.svc, at.value, Accept(room, update, size, s.now)),
         db := s.db.(writes := Arrive(s.db.writes, at.value, update.bytes)),
         hist := History(Relay(s.hist.known, s.gate.subscribers, socket, update.ops, delta),
                         s.hist.accepted + update.ops,
                         s.hist.tracks[at.value := Stamp(s.hist.tracks[at.value], delta, s.now)]))
  }

  function AfterPresence(s: State, socket: SocketId, bytes: nat, change: PresenceChange): State {
    var at := Current(s.svc, socket);
    if socket !in s.gate.registered || at.None? || bytes > MAX_UPDATE_BYTES then s
    else s.(svc := With(s.svc, at.value, ChangePresence(s.svc.heap[at.value], socket, change)))
  }

  function AfterLeave(s: State, socket: SocketId, newLeave: LeaveId, newWrite: WriteId): State
    requires s.svc.live.Some? ==> s.svc.live.value in s.hist.tracks
  {
    var closed := s.(gate := s.gate.(phases := s.gate.phases[socket := Closed]));
    var at := Current(s.svc, socket);
    if at.None? then closed
    else
      var room := Drop(s.svc.heap[at.value], socket);
      var dropped := closed.(svc := With(s.svc, at.value, LastOut(room)));
      if room.sockets != {} then dropped
      else dropped.(
           db := Issue(s.db, at.value, room, newWrite),
           hist := Encoded(s.hist, at.value, room),
           leaves := s.leaves[newLeave :=
                     PendingLeave(at.value, if room.dirtySince.Some? then Some(newWrite) else None)])
  }

  /** The tail of `leave`: the new handle overwrites the old one without clearing it. */
  function AfterLeaveFinish(s: State, leave: LeaveId, newTimer: TimerId): State
    requires leave in s.leaves && s.leaves[leave].room in s.svc.heap
  {
    var id := s.leaves[leave].room;
    s.(leaves := s.leaves - {leave},
       timers := s.timers[newTimer := UnloadTimer(id, s.now + IDLE_UNLOAD_MS)],
       svc := With(s.svc, id, s.svc.heap[id].(unloadTimer := Some(newTimer))))
  }

  function Without(writes: seq<Write>, i: nat): seq<Write>
    requires i < |writes|
  {
    writes[..i] + writes[i + 1..]
  }

  function AfterCommit(s: State, i: nat): State
    requires i < |s.db.writes|
  {
    var w := s.db.writes[i];
    s.(db := s.db.(store := Some(w.doc), writes := s.db.writes[i := w.(committed := true)]))
  }

  function AfterSaveOk(s: State, i: nat): State
    requires i < |s.db.writes| && s.db.writes[i].room in s.svc.heap && s.db.writes[i].room in s.hist.tracks
  {
    var w := s.db.writes[i];
    s.(db := s.db.(writes := Without(s.db.writes, i)),
       svc := With(s.svc, w.room, Saved(s.svc.heap[w.room], w.doc.size)),
       hist := s.hist.(tracks := s.hist.tracks[w.room := s.hist.tracks[w.room].(debt := w.arrived)]))
  }

  function AfterSaveFail(s: State, i: nat): State
    requires i < |s.db.writes| && s.db.writes[i].room in s.svc.heap
  {
    var w := s.db.writes[i];
    s.(db := s.db.(writes := Without(s.db.writes, i)),
       svc := With(s.svc, w.room, SaveFailed(s.svc.heap[w.room], s.now)))
  }

  function AfterUnload(s: State, timer: TimerId): State
    requires timer in s.timers && s.timers[timer].room in s.svc.heap
  {
    var id := s.timers[timer].room;
    var room := s.svc.heap[id];
    s.(timers := if Unloadable(room) then Cancel(s.timers - {timer}, room.unloadTimer) else s.timers - {timer},
       svc := Unload(s.svc, id))
  }

  function AfterEvict(s: State): State {
    s.(svc := Evict(s.svc),
       timers := if s.svc.live.Some? && s.svc.live.value in s.svc.heap
                 then Cancel(s.timers, s.svc.heap[s.svc.live.value].unloadTimer) else s.timers,
       eviction := Evicted)
  }

  // ---- When a step can happen ----

  predicate Rests(s: State, socket: SocketId) {
    socket in s.gate.phases ==> s.gate.phases[socket].Closed? || s.gate.phases[socket].Open?
  }

  /**
   A load hands over what it read, and re-encoding a stored document never
   grows it; a document never saved is seeded with anything.
  */
  predicate Restores(stored: Option<Doc>, doc: Doc) {
    stored.Some? ==> doc.ops == stored.value.ops && doc.size <= stored.value.size
  }

  /** Writes to one document commit in the order they were issued. */
  predicate Next(writes: seq<Write>, i: nat) {
    && i < |writes| && !writes[i].committed
    && forall j | 0 <= j < i :: writes[j].committed
  }

  lemma IndexOfNext(writes: seq<Write>, i: nat)
    requires Next(writes, i)
    ensures i < |writes|
  {
  }

  predicate SessionEnabled(s: State, step: SessionStep) {
    match step
    // A socket does one thing at a time with a document.
    case Subscribe(k) => Rests(s, k)
    case RequestRoom(k, l) => k in s.gate.phases && s.gate.phases[k].Subscribed? && l !in s.loads
    case JoinFinish(k) =>
      && k in s.gate.phases && s.gate.phases[k].Opening? && k in s.hist.known
      && var result := Resolved(s.svc, s.loads, s.gate.phases[k].on);
      && result.Some?
      && (result.value.Loaded? ==> result.value.room in s.svc.heap)
    case Unsubscribe(k) => k in s.gate.registered && Rests(s, k)
    case LeaveStart(k, leave, write) =>
      && k in s.gate.phases && s.gate.phases[k].Leaving? && leave !in s.leaves && !InFlight(s.db, write)
      && (s.svc.live.Some? ==> s.svc.live.value in s.hist.tracks)
    case LeaveFinish(leave, timer) =>
      && leave in s.leaves && s.leaves[leave].room in s.svc.heap && timer !in s.timers
      && (s.leaves[leave].write.Some? ==> !InFlight(s.db, s.leaves[leave].write.value))
  }

  predicate LoadEnabled(s: State, step: LoadStep) {
    match step
    case LoadRead(l) => l in s.loads && s.loads[l].Reading?
    case LoadFail(l) => l in s.loads && s.loads[l].Reading?
    case LoadFinish(l, id, doc) =>
      && l in s.loads && s.loads[l].Got? && id !in s.svc.heap
      && Restores(s.loads[l].stored, doc)
    case LoadSettle(l) => l in s.loads && s.loads[l].Done? && s.svc.loading == Some(l)
  }

  predicate EditEnabled(s: State, step: EditStep) {
    match step
    case Edit(k, update, size) =>
      && (s.svc.live.Some? ==> s.svc.live.value in s.hist.tracks)
      && (Current(s.svc, k).Some? ==> size <= s.svc.heap[s.svc.live.value].doc.size + update.bytes)
    case Presence(k, _, change) =>
      Current(s.svc, k).Some? ==> Classified(s.svc.heap[s.svc.live.value], change)
    case PresenceTimeout(id, ids) =>
      id in s.svc.heap && !s.svc.heap[id].disposed && ids <= s.svc.heap[id].presence
  }

  predicate SaveEnabled(s: State, step: SaveStep) {
    match step
    case SaveTimerFires(id, write) =>
      && id in s.svc.heap && id in s.hist.tracks && !InFlight(s.db, write)
      && s.svc.heap[id].saveTimer.Some? && s.svc.heap[id].saveTimer.value <= s.now
    // Once the board row is gone the foreign key refuses the write.
    case Commit(i) => Next(s.db.writes, i) && !s.db.deleted
    case SaveOk(i) =>
      && i < |s.db.writes| && s.db.writes[i].committed
      && s.db.writes[i].room in s.svc.heap && s.db.writes[i].room in s.hist.tracks
    case SaveFail(i) => i < |s.db.writes| && s.db.writes[i].room in s.svc.heap
  }

  predicate LifeEnabled(s: State, step: LifeStep) {
    match step
    case Tick(_) => true
    case UnloadTimerFires(t) => t in s.timers && s.timers[t].due <= s.now && s.timers[t].room in s.svc.heap
    case EvictStart => !s.eviction.Awaiting?
    case EvictFinish => s.eviction.Awaiting? && (s.eviction.load.Some? ==> s.svc.loading != s.eviction.load)
    case DeleteBoard => s.eviction.Evicted?
    // `createIfAbsent` inserts only when there is no row.
    case StartProject(_) => s.kind.Sandbox? && s.db.store.None? && !s.db.deleted
  }

  predicate Enabled(s: State, step: Step) {
    match step
    case Session(x) => SessionEnabled(s, x)
    case Loading(x) => LoadEnabled(s, x)
    case Change(x) => EditEnabled(s, x)
    case Saving(x) => SaveEnabled(s, x)
    case Life(x) => LifeEnabled(s, x)
  }

  function SessionApply(s: State, step: SessionStep): State
    requires SessionEnabled(s, step)
  {
    match step
    case Subscribe(k) => AfterSubscribe(s, k)
    case RequestRoom(k, l) => AfterRequest(s, k, l)
    case JoinFinish(k) => AfterJoin(s, k, Resolved(s.svc, s.loads, s.gate.phases[k].on).value)
    case Unsubscribe(k) => AfterUnsubscribe(s, k)
    case LeaveStart(k, leave, write) => AfterLeave(s, k, leave, write)
    case LeaveFinish(leave, timer) => AfterLeaveFinish(s, leave, timer)
  }

  function LoadApply(s: State, step: LoadStep): State
    requires LoadEnabled(s, step)
  {
    match step
    case LoadRead(l) => s.(loads := s.loads[l := Got(s.db.store)])
    case LoadFail(l) => s.(loads := s.loads[l := Done(Failed)])
    case LoadFinish(l, id, doc) => AfterLoad(s, l, id, doc)
    case LoadSettle(l) => s.(svc := s.svc.(loading := None))
  }

  function EditApply(s: State, step: EditStep): State
    requires EditEnabled(s, step)
  {
    match step
    case Edit(k, update, size) => AfterEdit(s, k, update, size)
    case Presence(k, bytes, change) => AfterPresence(s, k, bytes, change)
    case PresenceTimeout(id, ids) => s.(svc := With(s.svc, id, ExpirePresence(s.svc.heap[id], ids)))
  }

  function SaveApply(s: State, step: SaveStep): State
    requires SaveEnabled(s, step)
  {
    match step
    case SaveTimerFires(id, write) => AfterSaveStart(s, id, write)
    case Commit(i) => AfterCommit(s, i)
    case SaveOk(i) => AfterSaveOk(s, i)
    case SaveFail(i) => AfterSaveFail(s, i)
  }

  function LifeApply(s: State, step: LifeStep): State
    requires LifeEnabled(s, step)
  {
    match step
    case Tick(elapsed) => s.(now := s.now + elapsed)
    case UnloadTimerFires(t) => AfterUnload(s, t)
    case EvictStart => s.(eviction := Awaiting(s.svc.loading, s.eviction.Happened()))
    case EvictFinish => AfterEvict(s)
    case DeleteBoard => s.(db := s.db.(store := None, deleted := true))
    case StartProject(doc) =>
      s.(db := s.db.(store := Some(doc)), hist := s.hist.(accepted := s.hist.accepted + doc.ops))
  }

  function Apply(s: State, step: Step): State
    requires Enabled(s, step)
  {
    match step
    case Session(x) => SessionApply(s, x)
    case Loading(x) => LoadApply(s, x)
    case Change(x) => EditApply(s, x)
    case Saving(x) => SaveApply(s, x)
    case Life(x) => LifeApply(s, x)
  }

  /** Only `evict` itself moves an eviction on. */
  lemma SessionKeepsEviction(s: State, step: SessionStep)
    requires SessionEnabled(s, step)
    ensures SessionApply(s, step).eviction == s.eviction
  {
    hide InFlight, Resolved, Current, Opens, Joins, StartLoad, Request, Drop, LastOut, Join, Encoded, Issue, Cancel,
         With, Enter;
  }

  lemma LoadKeepsEviction(s: State, step: LoadStep)
    requires LoadEnabled(s, step)
    ensures LoadApply(s, step).eviction == s.eviction
  {
    hide Install, NewRoom, NewTrack, Restores, Outcome;
  }

  lemma EditKeepsEviction(s: State, step: EditStep)
    requires EditEnabled(s, step)
    ensures EditApply(s, step).eviction == s.eviction
  {
    hide Current, Admits, Classified, Accept, ChangePresence, ExpirePresence, Relay, Arrive, Stamp, With, TooLarge;
  }

  lemma SaveKeepsEviction(s: State, step: SaveStep)
    requires SaveEnabled(s, step)
    ensures SaveApply(s, step).eviction == s.eviction
  {
    hide InFlight, Issue, Encoded, With, Without, Next;
    match step
    case Commit(i) => IndexOfNext(s.db.writes, i);
    case _ =>
  }

  lemma EvictionStays(s: State, step: Step)
    requires Enabled(s, step) && !step.Life?
    ensures Apply(s, step).eviction == s.eviction
  {
    hide SessionEnabled, SessionApply, LoadEnabled, LoadApply, EditEnabled, EditApply, SaveEnabled, SaveApply;
    match step
    case Session(x) => SessionKeepsEviction(s, x);
    case Loading(x) => LoadKeepsEviction(s, x);
    case Change(x) => EditKeepsEviction(s, x);
    case Saving(x) => SaveKeepsEviction(s, x);
  }

  // ---- Runs ----

  /** An assumption about the environment: which steps it may take, and when. */
  type Assumption = (State, Step) -> bool

  ghost predicate Run(s: State, steps: seq<Step>, t: State, allowed: Assumption)
    decreases |steps|
  {
    if steps == [] then s == t
    else Enabled(s, steps[0]) && allowed(s, steps[0]) && Run(Apply(s, steps[0]), steps[1..], t, allowed)
  }

  /** The database answers: no load and no save fails. */
  predicate Faultless(s: State, step: Step) {
    match step
    case Loading(LoadFail(_)) => false
    case Saving(SaveFail(_)) => false
    case _ => true
  }

  /** Some allowed run leads from one to the other. */
  ghost predicate Reaches(s: State, t: State, allowed: Assumption) {
    exists steps :: Run(s, steps, t, allowed)
  }

  lemma ReachesItself(s: State, allowed: Assumption)
    ensures Reaches(s, s, allowed)
  {
    assert Run(s, [], s, allowed);
  }

  lemma {:induction false} Concat(s: State, before: seq<Step>, now: State, after: seq<Step>, t: State,
                                  allowed: Assumption)
    requires Run(s, before, now, allowed) && Run(now, after, t, allowed)
    ensures Run(s, before + after, t, allowed)
    decreases |before|
  {
    hide Enabled, Apply;
    if before == [] {
      assert before + after == after;
    } else {
      Concat(Apply(s, before[0]), before[1..], now, after, t, allowed);
      assert (before + after)[0] == before[0] && (before + after)[1..] == before[1..] + after;
    }
  }

  /** One more step. */
  lemma Then(s: State, now: State, step: Step, allowed: Assumption) returns (t: State)
    requires Reaches(s, now, allowed) && Enabled(now, step) && allowed(now, step)
    ensures Reaches(s, t, allowed) && t == Apply(now, step)
  {
    t := Apply(now, step);
    hide Enabled, Apply;
    var steps :| Run(s, steps, now, allowed);
    assert [step][1..] == [] && Run(now, [step], t, allowed);
    Concat(s, steps, now, [step], t, allowed);
  }

  lemma Onwards(s: State, now: State, t: State, allowed: Assumption)
    requires Reaches(s, now, allowed) && Reaches(now, t, allowed)
    ensures Reaches(s, t, allowed)
  {
    hide Run;
    var before :| Run(s, before, now, allowed);
    var after :| Run(now, after, t, allowed);
    Concat(s, before, now, after, t, allowed);
  }

  /**
   An unload timer that would close its room fires when the key holds that very
   room, or when no room is live at all. The code does not enforce this, and
   the single room needs exactly this (BoardTwoRooms.FiringCanSplitExactly).
  */
  predicate Keyed(s: State, step: Step) {
    if step.Life? && step.life.UnloadTimerFires? then KeyedUnload(s, step.life.timer) else true
  }

  predicate KeyedUnload(s: State, timer: TimerId) {
    if timer in s.timers && s.timers[timer].room in s.svc.heap && Unloadable(s.svc.heap[s.timers[timer].room])
    then s.svc.live.None? || s.svc.live.value == s.timers[timer].room
    else true
  }

  /**
   And a timer that closes the live room fires with none of that room's writes
   outstanding. The code does not enforce this either (see BoardUnloadRace).
  */
  predicate Settled(s: State, step: Step) {
    if step.Life? && step.life.UnloadTimerFires? then SettledUnload(s, step.life.timer) else true
  }

  predicate SettledUnload(s: State, timer: TimerId) {
    && KeyedUnload(s, timer)
    && (Closes(s, timer) ==> forall i | 0 <= i < |s.db.writes| :: s.db.writes[i].room != s.svc.live.value)
  }

  /**
   What durability needs of closings is less: that the row already holds the
   document. Settled runs are calm (BoardDurability.SettledRunsAreCalm), and calm
   closings are exactly those that lose nothing (BoardLoss.ClosingIsSafeExactly).
  */
  predicate Calm(s: State, step: Step) {
    if step.Life? && step.life.UnloadTimerFires? then CalmUnload(s, step.life.timer) else true
  }

  predicate CalmUnload(s: State, timer: TimerId) {
    KeyedUnload(s, timer) && (Closes(s, timer) ==> s.svc.heap[s.svc.live.value].doc.ops <= Ops(s.db.store))
  }

  /** Firing this timer closes the live room. */
  predicate Closes(s: State, timer: TimerId) {
    && timer in s.timers && s.svc.live == Some(s.timers[timer].room)
    && s.svc.live.value in s.svc.heap && Unloadable(s.svc.heap[s.svc.live.value])
  }

  lemma CalmIsKeyed(s: State, step: Step)
    requires Calm(s, step)
    ensures Keyed(s, step)
  {
  }

  /** Nothing fails, and timers are keyed. */
  predicate Ordinary(s: State, step: Step) {
    Faultless(s, step) && Keyed(s, step)
  }

  lemma {:induction false} OrdinaryRuns(s: State, steps: seq<Step>, t: State)
    requires Run(s, steps, t, Ordinary)
    ensures Run(s, steps, t, Faultless) && Run(s, steps, t, Keyed)
    decreases |steps|
  {
    hide Enabled, Apply, Faultless, Keyed;
    if steps != [] {
      OrdinaryRuns(Apply(s, steps[0]), steps[1..], t);
    }
  }

  lemma OrdinaryReaches(s: State, t: State)
    requires Reaches(s, t, Ordinary)
    ensures Reaches(s, t, Faultless) && Reaches(s, t, Keyed)
  {
    hide Run;
    var steps :| Run(s, steps, t, Ordinary);
    OrdinaryRuns(s, steps, t);
  }
}
