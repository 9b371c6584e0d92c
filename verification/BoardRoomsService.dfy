/**
 `BoardRoomsService` as the objects it is made of: a room updated in place,
 and a service holding the `rooms` and `loading` maps for every board. Each
 method is one stretch between awaits; it is proved to do to its own key what
 the step of BoardMachine does, and nothing to any other key, which is why the
 machine may follow one document at a time.
*/
module BoardRoomsService {
  import opened Prelude
  import Spec = BoardRoom
  import M = BoardMachine

  type Key = string

  /** The map key of one of a board's documents. */
  function KeyOf(kind: M.Kind, boardId: string): Key {
    (match kind case Code => "code" case Sandbox => "sandbox") + ":" + boardId
  }

  /** Different documents never share a key. */
  lemma KeysAreDistinct(kind: M.Kind, boardId: string, kind': M.Kind, boardId': string)
    requires KeyOf(kind, boardId) == KeyOf(kind', boardId')
    ensures kind == kind' && boardId == boardId'
  {
    var key := KeyOf(kind, boardId);
    assert key[0] == (if kind.Code? then 'c' else 's');
    assert key[0] == (if kind'.Code? then 'c' else 's');
    var n := if kind.Code? then 5 else 8;
    assert key[n..] == boardId;
    assert key[n..] == boardId';
  }

  class LiveRoom {
    const key: Key
    // Stands for the identity of the object.
    const id: M.RoomId
    var doc: Spec.Doc
    var presence: set<Spec.ClientId>
    var sockets: set<Spec.SocketId>
    var clients: map<Spec.SocketId, set<Spec.ClientId>>
    var bytes: nat
    var dirtySince: Option<nat>
    var saveTimer: Option<nat>
    var unloadTimer: Option<Spec.TimerId>
    var disposed: bool

    ghost function View(): Spec.Room
      reads this
    {
      Spec.Room(doc, presence, sockets, clients, bytes, dirtySince, saveTimer, unloadTimer, disposed)
    }

    constructor (key: Key, id: M.RoomId, doc: Spec.Doc, dirtySince: Option<nat>)
      ensures this.key == key && this.id == id
      ensures View() == Spec.Room(doc, {}, {}, map[], doc.size, dirtySince, None, None, false)
    {
      this.key, this.id, this.doc := key, id, doc;
      this.presence, this.sockets, this.clients := {}, {}, map[];
      this.bytes, this.dirtySince := doc.size, dirtySince;
      this.saveTimer, this.unloadTimer, this.disposed := None, None, false;
    }
  }

  datatype Snapshot = Snapshot(state: Spec.Doc, awareness: set<Spec.ClientId>)

  /** What happened to an update; an applied one is relayed to everyone but its origin. */
  datatype UpdateResult = Ignored | TooLarge | Applied(relayed: set<Spec.Op>)

  class BoardRooms {
    var rooms: map<Key, LiveRoom>
    var loading: map<Key, M.LoadId>
    /** Every room object ever made; suspended calls and timers may still hold any of them. */
    ghost var made: map<M.RoomId, LiveRoom>

    ghost predicate Valid()
      reads this
    {
      && (forall id | id in made :: made[id].id == id)
      && (forall k | k in rooms :: rooms[k].id in made && made[rooms[k].id] == rooms[k] && rooms[k].key == k)
    }

    /** The room objects of this service. */
    ghost predicate Owns(room: LiveRoom)
      reads this
    {
      room.id in made && made[room.id] == room
    }

    ghost function Heap(key: Key): map<M.RoomId, Spec.Room>
      reads this`made, made.Values
    {
      map id | id in made && made[id].key == key :: made[id].View()
    }

    /** This key's part of the service, as the machine sees it. */
    ghost function At(key: Key): M.Service
      reads this, made.Values
    {
      M.Service(Heap(key),
                if key in rooms then Some(rooms[key].id) else None,
                if key in loading then Some(loading[key]) else None)
    }

    constructor ()
      ensures Valid() && made == map[]
      ensures forall key :: At(key) == M.Service(map[], None, None)
    {
      rooms, loading, made := map[], map[], map[];
    }

    /** `room()`. */
    method RequestRoom(kind: M.Kind, boardId: string, newLoad: M.LoadId) returns (waiting: M.Waiting)
      requires Valid()
      modifies this
      ensures Valid() && made == old(made)
      ensures
        var key := KeyOf(kind, boardId);
        && (At(key), waiting) == M.Request(old(At(key)), newLoad)
        && forall other | other != key :: At(other) == old(At(other))
    {
      var key := KeyOf(kind, boardId);
      if key in rooms {
        waiting := M.OnRoom(rooms[key].id);
      } else {
        if key !in loading {
          loading := loading[key := newLoad];
        }
        waiting := M.OnLoad(loading[key]);
      }
    }

    /** `room` may have changed in place; the maps, the other rooms and so every other key have not. */
    twostate predicate OnlyTouched(room: LiveRoom)
      reads this, made.Values
    {
      && Valid() && Owns(room) && made == old(made) && rooms == old(rooms) && loading == old(loading)
      && At(room.key) == M.With(old(At(room.key)), room.id, room.View())
      && forall other | other != room.key :: At(other) == old(At(other))
    }

    /** Whatever is written to one room object, only its own key notices. */
    twostate lemma TouchingOneRoom(room: LiveRoom)
      requires old(Valid()) && unchanged(this) && Owns(room)
      requires forall r | r in made.Values && r != room :: unchanged(r)
      ensures OnlyTouched(room)
    {
      assert Valid();
      forall key
        ensures Heap(key) == if key == room.key then old(Heap(key))[room.id := room.View()] else old(Heap(key))
      {
        forall id | id in Heap(key) && made[id] != room ensures Heap(key)[id] == old(Heap(key))[id] {
          assert made[id] in made.Values;
        }
      }
    }

    /** `scheduleSave`. */
    method ScheduleSave(room: LiveRoom, now: nat)
      requires Valid() && Owns(room)
      modifies room
      ensures OnlyTouched(room) && room.View() == Spec.ScheduleSave(old(room.View()), now)
      ensures
        var first := if old(room.dirtySince).Some? then old(room.dirtySince).value else now;
        && room.dirtySince == Some(first)
        && room.saveTimer == Some(Max(now, Min(now + Spec.SAVE_DEBOUNCE_MS, first + Spec.SAVE_MAX_WAIT_MS)))
    {
      if room.dirtySince.None? {
        room.dirtySince := Some(now);
      }
      var wait := Min(Spec.SAVE_DEBOUNCE_MS, Max(0, room.dirtySince.value + Spec.SAVE_MAX_WAIT_MS - now));
      room.saveTimer := Some(now + wait);
      TouchingOneRoom(room);
    }

    /** `join` once its room has arrived; `cancelled` is the timer handle it clears. */
    method FinishJoin(room: LiveRoom, socket: Spec.SocketId)
      returns (snapshot: Snapshot, cancelled: Option<Spec.TimerId>)
      requires Valid() && Owns(room)
      modifies room
      ensures OnlyTouched(room) && room.View() == Spec.Join(old(room.View()), socket)
      ensures At(room.key) == M.Enter(old(At(room.key)), room.id, socket)
      ensures snapshot == Snapshot(old(room.doc), old(room.presence)) && cancelled == old(room.unloadTimer)
    {
      cancelled := room.unloadTimer;
      room.unloadTimer := None;
      room.sockets := room.sockets + {socket};
      snapshot := Snapshot(room.doc, room.presence);
      TouchingOneRoom(room);
    }

    /** `joined()`. */
    method Joined(key: Key, socket: Spec.SocketId) returns (room: LiveRoom?)
      requires Valid()
      ensures room == null <==> M.Current(At(key), socket).None?
      ensures room != null ==> Owns(room) && room.key == key && M.Current(At(key), socket) == Some(room.id)
      ensures room != null ==> key in rooms && rooms[key] == room && socket in room.sockets
    {
      room := if key in rooms && socket in rooms[key].sockets then rooms[key] else null;
      if key in rooms {
        assert rooms[key].id in Heap(key) && Heap(key)[rooms[key].id] == rooms[key].View();
      }
    }

    /** Yjs merging an update into a room's document, and the `update` listener if that was news. */
    method Merge(room: LiveRoom, update: Spec.Update, size: nat, now: nat) returns (relayed: set<Spec.Op>)
      requires Valid() && Owns(room)
      modifies room
      ensures OnlyTouched(room) && room.View() == Spec.Accept(old(room.View()), update, size, now)
      ensures relayed == update.ops - old(room.doc.ops)
      ensures room.doc.ops == old(room.doc.ops) + update.ops && room.bytes == old(room.bytes) + update.bytes
      ensures relayed == {} ==> room.dirtySince == old(room.dirtySince) && room.saveTimer == old(room.saveTimer)
    {
      relayed := update.ops - room.doc.ops;
      room.bytes := room.bytes + update.bytes;
      if relayed != {} {
        room.doc := Spec.Doc(room.doc.ops + update.ops, size);
        ScheduleSave(room, now);
      }
      assert relayed == {} <==> update.ops <= old(room.doc.ops) by {
        assert forall op | op in update.ops :: op in relayed || op in old(room.doc.ops);
      }
      TouchingOneRoom(room);
    }

    /** `applyUpdate`; an applied update is relayed to everyone but its origin. */
    method ApplyUpdate(kind: M.Kind, boardId: string, socket: Spec.SocketId, update: Spec.Update, size: nat, now: nat)
      returns (result: UpdateResult)
      requires Valid()
      modifies made.Values
      ensures Valid() && unchanged(this)
      ensures
        var key := KeyOf(kind, boardId);
        var before := old(At(key));
        var at := M.Current(before, socket);
        && (forall other | other != key :: At(other) == old(At(other)))
        && match result
           case Ignored => at.None? && At(key) == before
           case TooLarge => at.Some? && Spec.TooLarge(before.heap[at.value], update) && At(key) == before
           case Applied(relayed) =>
             && at.Some? && !Spec.TooLarge(before.heap[at.value], update)
             && relayed == update.ops - before.heap[at.value].doc.ops
             && At(key) == M.With(before, at.value, Spec.Accept(before.heap[at.value], update, size, now))
    {
      hide Spec.Accept;
      var room := Joined(KeyOf(kind, boardId), socket);
      if room == null {
        return Ignored;
      }
      RoomIsInHeap(room);
      if update.bytes > Spec.MAX_UPDATE_BYTES || room.bytes + update.bytes > Spec.MAX_DOC_BYTES {
        return TooLarge;
      }
      var relayed := Merge(room, update, size, now);
      result := Applied(relayed);
    }

    lemma RoomIsInHeap(room: LiveRoom)
      requires Owns(room)
      ensures room in made.Values
      ensures room.id in Heap(room.key) && Heap(room.key)[room.id] == room.View()
      ensures room.id in At(room.key).heap && At(room.key).heap[room.id] == room.View()
    {
    }

    /** Added and updated ids are shown, removed ones are not, and the others stay as they were. */
    static ghost predicate ShownAfter(before: set<Spec.ClientId>, change: Spec.PresenceChange,
                                      after: set<Spec.ClientId>)
    {
      forall id :: id in after <==>
        id in change.added || id in change.updated || (id in before && id !in change.removed)
    }

    /** `applyAwareness`, with the awareness `update` listener; y-protocols classifies the change. */
    method ApplyAwareness(kind: M.Kind, boardId: string, socket: Spec.SocketId, bytes: nat, change: Spec.PresenceChange)
      returns (applied: bool)
      requires Valid()
      modifies made.Values
      ensures Valid() && unchanged(this)
      ensures
        var key := KeyOf(kind, boardId);
        var before := old(At(key));
        var at := M.Current(before, socket);
        && (forall other | other != key :: At(other) == old(At(other)))
        && applied == (at.Some? && bytes <= Spec.MAX_UPDATE_BYTES)
        && At(key) == (if applied
                       then M.With(before, at.value, Spec.ChangePresence(before.heap[at.value], socket, change))
                       else before)
        && (applied ==> ShownAfter(before.heap[at.value].presence, change, At(key).heap[at.value].presence))
    {
      hide Spec.ChangePresence;
      var room := Joined(KeyOf(kind, boardId), socket);
      applied := room != null && bytes <= Spec.MAX_UPDATE_BYTES;
      if applied {
        RoomIsInHeap(room);
        ShowPresence(room, socket, change);
      }
    }

    /** The awareness listener: only a socket still in the room gains or loses ids. */
    method ShowPresence(room: LiveRoom, socket: Spec.SocketId, change: Spec.PresenceChange)
      requires Valid() && Owns(room)
      modifies room
      ensures OnlyTouched(room) && room.View() == Spec.ChangePresence(old(room.View()), socket, change)
      ensures ShownAfter(old(room.presence), change, room.presence)
    {
      room.presence := room.presence - change.removed + change.added + change.updated;
      if socket in room.sockets {
        var owned := if socket in room.clients then room.clients[socket] else {};
        room.clients := room.clients[socket := owned + change.added - change.removed];
      }
      TouchingOneRoom(room);
    }

    /** y-protocols forgets states nobody refreshed; the listener sees an origin that is no socket. */
    method ExpireStates(room: LiveRoom, ids: set<Spec.ClientId>)
      requires Valid() && Owns(room)
      modifies room
      ensures OnlyTouched(room) && room.View() == Spec.ExpirePresence(old(room.View()), ids)
      ensures room.presence == old(room.presence) - ids
    {
      room.presence := room.presence - ids;
      TouchingOneRoom(room);
    }

    /** `save` up to its await: what to write, if the room was dirty. */
    method BeginSave(room: LiveRoom) returns (state: Option<Spec.Doc>)
      requires Valid() && Owns(room)
      modifies room
      ensures OnlyTouched(room) && room.View() == Spec.SaveStart(old(room.View()))
      ensures state == if old(room.dirtySince).Some? then Some(old(room.doc)) else None
      ensures room.dirtySince.None? && room.saveTimer.None? && room.doc == old(room.doc)
    {
      room.saveTimer := None;
      state := None;
      if room.dirtySince.Some? {
        state := Some(room.doc);
        room.dirtySince := None;
      }
      TouchingOneRoom(room);
    }

    method SaveSucceeded(room: LiveRoom, state: Spec.Doc)
      requires Valid() && Owns(room)
      modifies room
      ensures OnlyTouched(room) && room.View() == Spec.Saved(old(room.View()), state.size)
      ensures room.bytes == state.size && room.dirtySince == old(room.dirtySince)
    {
      room.bytes := state.size;
      TouchingOneRoom(room);
    }

    method SaveFailed(room: LiveRoom, now: nat)
      requires Valid() && Owns(room)
      modifies room
      ensures OnlyTouched(room) && room.View() == Spec.SaveFailed(old(room.View()), now)
      ensures room.dirtySince == if old(room.dirtySince).Some? then old(room.dirtySince) else Some(now)
    {
      if room.dirtySince.None? {
        room.dirtySince := Some(now);
      }
      TouchingOneRoom(room);
    }

    /** `leave` up to its await: the room the socket was last out of, and what to write before it may unload. */
    method BeginLeave(kind: M.Kind, boardId: string, socket: Spec.SocketId)
      returns (emptied: LiveRoom?, state: Option<Spec.Doc>)
      requires Valid()
      modifies made.Values
      ensures Valid() && unchanged(this)
      ensures
        var key := KeyOf(kind, boardId);
        var before := old(At(key));
        var at := M.Current(before, socket);
        && (forall other | other != key :: At(other) == old(At(other)))
        && (at.None? ==> At(key) == before && emptied == null)
        && (at.Some? ==>
              var room := Spec.Drop(before.heap[at.value], socket);
              && At(key) == M.With(before, at.value, Spec.LastOut(room))
              && (emptied != null <==> room.sockets == {})
              && (emptied != null ==> Owns(emptied) && emptied.id == at.value && emptied.key == key)
              && (emptied != null ==> state == if room.dirtySince.Some? then Some(room.doc) else None))
    {
      hide Spec.SaveStart, Spec.Drop, M.With;
      emptied, state := null, None;
      var room := Joined(KeyOf(kind, boardId), socket);
      if room == null {
        return;
      }
      RoomIsInHeap(room);
      DropSocket(room, socket);
      ghost var dropped := room.View();
      if room.sockets == {} {
        RoomIsInHeap(room);
        state := BeginSave(room);
        emptied := room;
        LastWriteWins(old(At(room.key)), room.id, dropped, room.View());
      }
    }

    static lemma WithKeepsMaps(svc: M.Service, id: M.RoomId, room: Spec.Room)
      ensures M.With(svc, id, room).live == svc.live && M.With(svc, id, room).loading == svc.loading
    {
    }

    static lemma LastWriteWins(svc: M.Service, id: M.RoomId, a: Spec.Room, b: Spec.Room)
      ensures M.With(M.With(svc, id, a), id, b) == M.With(svc, id, b)
    {
    }

    /** The socket goes first, so that removing its states does not hand it new ones. */
    method DropSocket(room: LiveRoom, socket: Spec.SocketId)
      requires Valid() && Owns(room)
      modifies room
      ensures OnlyTouched(room) && room.View() == Spec.Drop(old(room.View()), socket)
      ensures room.sockets == old(room.sockets) - {socket} && room.clients == old(room.clients) - {socket}
      ensures room.presence == old(room.presence) - old(Spec.Owned(room.View(), socket))
    {
      room.sockets := room.sockets - {socket};
      var clients := if socket in room.clients then room.clients[socket] else {};
      room.clients := room.clients - {socket};
      room.presence := room.presence - clients;
      TouchingOneRoom(room);
    }

    /** The tail of `leave`, after its save. */
    method FinishLeave(room: LiveRoom, newTimer: Spec.TimerId)
      requires Valid() && Owns(room)
      modifies room
      ensures OnlyTouched(room) && room.View() == old(room.View()).(unloadTimer := Some(newTimer))
    {
      room.unloadTimer := Some(newTimer);
      TouchingOneRoom(room);
    }

    /** `dispose`. */
    method Dispose(room: LiveRoom)
      requires Valid() && Owns(room)
      modifies room
      ensures OnlyTouched(room) && room.View() == Spec.Dispose(old(room.View()))
      ensures room.disposed && room.saveTimer.None?
    {
      room.saveTimer := None;
      room.disposed := true;
      TouchingOneRoom(room);
    }

    /**
     The last part of `load`: a document never saved and without a seed gives
     no room; any other is wrapped in a new room, and a seeded one is saved soon.
    */
    method FinishLoad(kind: M.Kind, boardId: string, stored: Option<Spec.Doc>, doc: Spec.Doc, id: M.RoomId, now: nat)
      returns (room: LiveRoom?)
      requires Valid() && id !in made
      modifies this
      ensures Valid()
      ensures
        var key := KeyOf(kind, boardId);
        && (forall other | other != key :: At(other) == old(At(other)))
        && (room == null <==> stored.None? && kind.Sandbox?)
        && (room == null ==> made == old(made) && At(key) == old(At(key)))
        && (room != null ==>
              && fresh(room) && room.id == id && made == old(made)[id := room]
              && At(key) == M.Install(old(At(key)), id, Spec.NewRoom(doc, stored.None?, now))
              && room.doc == doc && room.bytes == doc.size && room.sockets == {} && room.presence == {}
              && room.dirtySince == (if stored.None? then Some(now) else None)
              && room.saveTimer == (if stored.None? then Some(now + Spec.SAVE_DEBOUNCE_MS) else None))
    {
      if stored.None? && kind.Sandbox? {
        return null;
      }
      var key := KeyOf(kind, boardId);
      var loaded := new LiveRoom(key, id, doc, if stored.Some? then None else Some(now));
      made := made[id := loaded];
      rooms := rooms[key := loaded];
      HeapsAfterLoad(loaded);
      label installed:
      ghost var before := loaded.View();
      if stored.None? {
        ScheduleSave(loaded, now);
        LastWriteWins(old(At(key)), id, before, loaded.View());
      }
      room := loaded;
    }

    twostate lemma HeapsAfterLoad(new room: LiveRoom)
      requires room.id !in old(made) && made == old(made)[room.id := room]
      requires forall r | r in old(made).Values :: unchanged(r)
      ensures forall key ::
                Heap(key) == if key == room.key then old(Heap(key))[room.id := room.View()] else old(Heap(key))
    {
      forall key
        ensures Heap(key) == if key == room.key then old(Heap(key))[room.id := room.View()] else old(Heap(key))
      {
        forall id | id in Heap(key) && id != room.id
          ensures id in old(Heap(key)) && Heap(key)[id] == old(Heap(key))[id]
        {
          assert old(made)[id] in old(made).Values;
        }
        forall id | id in old(Heap(key)) ensures id in Heap(key) {
          assert old(made)[id] in old(made).Values;
        }
      }
    }

    /** The `finally` of a load. */
    method SettleLoad(kind: M.Kind, boardId: string)
      requires Valid()
      modifies this
      ensures Valid() && made == old(made) && rooms == old(rooms)
      ensures
        var key := KeyOf(kind, boardId);
        At(key) == old(At(key)).(loading := None) && forall other | other != key :: At(other) == old(At(other))
    {
      loading := loading - {KeyOf(kind, boardId)};
    }

    /** `unload`: it deletes by key, whichever room the key holds by then. */
    method Unload(room: LiveRoom)
      requires Valid() && Owns(room)
      modifies this, room
      ensures Valid() && made == old(made)
      ensures At(room.key) == M.Unload(old(At(room.key)), room.id)
      ensures if old(room.sockets) == {} && old(room.dirtySince).None?
              then room.disposed && rooms == old(rooms) - {room.key} else rooms == old(rooms) && unchanged(room)
      ensures forall other | other != room.key :: At(other) == old(At(other))
    {
      hide M.With, Spec.Dispose;
      RoomIsInHeap(room);
      if room.sockets != {} || room.dirtySince.Some? {
        return;
      }
      Dispose(room);
      label disposed:
      rooms := rooms - {room.key};
      assert forall k :: Heap(k) == old@disposed(Heap(k));
      WithKeepsMaps(old(At(room.key)), room.id, room.View());
    }

    /** The part of `evict` after its await, for one document. */
    method EvictKey(kind: M.Kind, boardId: string) returns (wasOpen: bool)
      requires Valid()
      modifies this, made.Values
      ensures Valid() && made == old(made)
      ensures
        var key := KeyOf(kind, boardId);
        && At(key) == M.Evict(old(At(key))) && wasOpen == old(At(key)).live.Some?
        && rooms == old(rooms) - {key} && (wasOpen ==> old(rooms)[key].disposed)
        && forall other | other != key :: At(other) == old(At(other))
    {
      var key := KeyOf(kind, boardId);
      wasOpen := key in rooms;
      if wasOpen {
        var room := rooms[key];
        RoomIsInHeap(room);
        rooms := rooms - {key};
        label removed:
        assert forall k :: Heap(k) == old(Heap(k));
        Dispose(room);
      }
    }
  }
}
