/**
 The gateway's bookkeeping as the objects it lives in: Socket.IO's rooms and
 each socket's `client.data`. Every method is one stretch of a handler, proved
 to do to its document what the machine's step does to the machine's gate, and
 nothing to any other document. A board's code is its own for good, and board
 ids (UUIDs) contain no colon.
*/
module BoardsGateway {
  import opened Prelude
  import opened BoardRoom
  import M = BoardMachine

  type BoardId = string
  type Code = string

  predicate IsId(boardId: BoardId) {
    ':' !in boardId
  }

  function RoomOf(kind: M.Kind, boardId: BoardId): string {
    "board:" + boardId + match kind case Code => "" case Sandbox => ":sandbox"
  }

  /** Where the first colon is, or the end. */
  function ColonAt(s: string): nat {
    if s == "" || s[0] == ':' then 0 else 1 + ColonAt(s[1..])
  }

  lemma {:induction false} IdEndsAtColon(boardId: BoardId, suffix: string)
    requires IsId(boardId) && (suffix != "" ==> suffix[0] == ':')
    ensures ColonAt(boardId + suffix) == |boardId|
  {
    if boardId == "" {
      assert boardId + suffix == suffix;
    } else {
      IdEndsAtColon(boardId[1..], suffix);
      assert (boardId + suffix)[1..] == boardId[1..] + suffix;
    }
  }

  /** No two documents share a Socket.IO room. */
  lemma RoomsAreDistinct(kind: M.Kind, boardId: BoardId, kind': M.Kind, boardId': BoardId)
    requires IsId(boardId) && IsId(boardId') && RoomOf(kind, boardId) == RoomOf(kind', boardId')
    ensures kind == kind' && boardId == boardId'
  {
    var suffix, suffix' := RoomOf(kind, boardId)[6 + |boardId|..], RoomOf(kind', boardId')[6 + |boardId'|..];
    IdEndsAtColon(boardId, suffix);
    IdEndsAtColon(boardId', suffix');
    assert boardId + suffix == RoomOf(kind, boardId)[6..] == boardId' + suffix';
    assert boardId == (boardId + suffix)[..|boardId|] && boardId' == (boardId' + suffix')[..|boardId|];
    assert |suffix| == if kind.Code? then 0 else 8;
  }

  class SocketData {
    const id: SocketId
    var boards: map<Code, BoardId>
    var sandboxes: map<Code, BoardId>

    constructor (id: SocketId)
      ensures this.id == id && boards == map[] && sandboxes == map[]
    {
      this.id, boards, sandboxes := id, map[], map[];
    }

    function Opened(kind: M.Kind): map<Code, BoardId>
      reads this
    {
      match kind case Code => boards case Sandbox => sandboxes
    }
  }

  class Gateway {
    /** Which board a code names. */
    const codes: map<Code, BoardId>
    var rooms: map<string, set<SocketId>>
    var clients: map<SocketId, SocketData>

    constructor (codes: map<Code, BoardId>)
      requires forall c | c in codes :: IsId(codes[c])
      requires forall c, d | c in codes && d in codes && codes[c] == codes[d] :: c == d
      ensures Valid() && this.codes == codes && rooms == map[] && clients == map[]
    {
      this.codes, rooms, clients := codes, map[], map[];
    }

    /** What the sockets' data lists goes by the boards' own codes, and no two codes name one board. */
    ghost predicate Valid()
      reads this, clients.Values
    {
      && (forall c | c in codes :: IsId(codes[c]))
      && (forall c, d | c in codes && d in codes && codes[c] == codes[d] :: c == d)
      && (forall k | k in clients :: clients[k].id == k && Named(clients[k]))
    }

    ghost predicate Named(client: SocketData)
      reads client
    {
      && (forall c | c in client.boards :: c in codes && client.boards[c] == codes[c])
      && (forall c | c in client.sandboxes :: c in codes && client.sandboxes[c] == codes[c])
    }

    ghost predicate Connected(client: SocketData)
      reads this
    {
      client.id in clients && clients[client.id] == client
    }

    function Subscribers(kind: M.Kind, boardId: BoardId): set<SocketId>
      reads this`rooms
    {
      var room := RoomOf(kind, boardId);
      if room in rooms then rooms[room] else {}
    }

    ghost predicate Lists(k: SocketId, kind: M.Kind, code: Code)
      reads this`clients, clients.Values
    {
      k in clients && code in clients[k].Opened(kind)
    }

    /** The machine's gate for this document. */
    ghost predicate Shows(kind: M.Kind, code: Code, gate: M.Gate)
      reads this, clients.Values
    {
      && code in codes
      && gate.subscribers == Subscribers(kind, codes[code])
      && forall k :: k in gate.registered <==> Lists(k, kind, code)
    }

    /** The same sockets hear about a document, and the same list it. */
    twostate predicate Kept(kind: M.Kind, code: Code)
      requires code in codes
      reads this, clients.Values
    {
      && Subscribers(kind, codes[code]) == old(Subscribers(kind, codes[code]))
      && forall k :: Lists(k, kind, code) <==> old(Lists(k, kind, code))
    }

    twostate predicate OthersKept(kind: M.Kind, code: Code)
      reads this, clients.Values
    {
      forall otherKind, other | other in codes && (otherKind != kind || other != code) :: Kept(otherKind, other)
    }

    /** `client.join`, the first stretch of both opens. */
    method Subscribe(kind: M.Kind, code: Code, client: SocketData, ghost s: M.State)
      requires Valid() && Connected(client) && Shows(kind, code, s.gate)
      modifies this`rooms
      ensures Valid() && Shows(kind, code, M.AfterSubscribe(s, client.id).gate) && OthersKept(kind, code)
      ensures Subscribers(kind, codes[code]) == old(Subscribers(kind, codes[code])) + {client.id}
    {
      rooms := rooms[RoomOf(kind, codes[code]) := Subscribers(kind, codes[code]) + {client.id}];
      OtherRooms((kind, code));
    }

    /** Up to the room being asked for: the code document is listed before it has opened. */
    method AskForRoom(kind: M.Kind, code: Code, client: SocketData, ghost s: M.State, ghost waiting: M.Waiting)
      requires Valid() && Connected(client) && Shows(kind, code, s.gate)
      modifies client
      ensures Valid() && Shows(kind, code, M.Opens(s.gate, kind, client.id, waiting)) && OthersKept(kind, code)
      ensures Lists(client.id, kind, code) <==> kind.Code? || old(Lists(client.id, kind, code))
    {
      if kind.Code? {
        List(kind, code, client);
      }
    }

    /** The end of an open: a project nobody has started is left again, and one that opened is listed now. */
    method FinishOpen(kind: M.Kind, code: Code, client: SocketData, result: M.LoadResult, ghost s: M.State)
      requires Valid() && Connected(client) && Shows(kind, code, s.gate)
      requires result.Nothing? ==> kind.Sandbox?
      requires kind.Code? ==> client.id in s.gate.registered
      modifies this`rooms, client
      ensures Valid() && Shows(kind, code, M.Joins(s.gate, client.id, result)) && OthersKept(kind, code)
      ensures result.Loaded? ==> Lists(client.id, kind, code)
      ensures Subscribers(kind, codes[code]) ==
              old(Subscribers(kind, codes[code])) - (if result.Nothing? then {client.id} else {})
    {
      if result.Nothing? {
        Unsubscribe(kind, code, client.id);
      } else if result.Loaded? && kind.Sandbox? {
        List(kind, code, client);
      }
    }

    /** `leave` and `leaveSandbox` up to the room service: what to leave there, if anything was open. */
    method BeginLeave(kind: M.Kind, code: Code, client: SocketData, ghost s: M.State) returns (left: Option<BoardId>)
      requires Valid() && Connected(client) && (code in codes ==> Shows(kind, code, s.gate))
      modifies this`rooms, client
      ensures Valid()
      ensures left.Some? <==> code in old(client.Opened(kind))
      ensures left.Some? ==> code in codes && left.value == codes[code] && OthersKept(kind, code)
      ensures left.Some? ==> Shows(kind, code, M.AfterUnsubscribe(s, client.id).gate)
      ensures left.Some? ==> client.id !in Subscribers(kind, left.value) && !Lists(client.id, kind, code)
      ensures left.None? ==> unchanged(this) && unchanged(client)
    {
      if code !in client.Opened(kind) {
        return None;
      }
      left := Some(client.Opened(kind)[code]);
      Unlist(kind, code, client);
      forall k, otherKind, other | other in codes && (otherKind != kind || other != code)
        ensures Lists(k, otherKind, other) <==> old(Lists(k, otherKind, other))
      {
        assert Kept(otherKind, other);
      }
      label unlisted:
      Unsubscribe(kind, code, client.id);
      forall otherKind, other | other in codes && (otherKind != kind || other != code) ensures Kept(otherKind, other) {
        assert Kept@unlisted(otherKind, other);
      }
    }

    /**
     `target`: an update names its board by code and carries bytes. It counts
     only if the code is one the socket's data lists and the payload is binary.
    */
    method Target(kind: M.Kind, code: Option<Code>, client: SocketData, bytes: Option<Update>)
      returns (target: Option<(BoardId, Update)>)
      requires Valid() && Connected(client)
      ensures target.Some? <==> code.Some? && Lists(client.id, kind, code.value) && bytes.Some?
      ensures target.Some? ==> code.value in codes && target.value == (codes[code.value], bytes.value)
    {
      var open := client.Opened(kind);
      var boardId := if code.Some? && code.value in open then Some(open[code.value]) else None;
      target := if boardId.Some? && bytes.Some? then Some((boardId.value, bytes.value)) else None;
    }

    /** The emitter handed to the room service: everyone in the document's room but the origin. */
    method Broadcast(boardId: BoardId, kind: M.Kind, exceptSocketId: Option<SocketId>) returns (heard: set<SocketId>)
      ensures heard == Subscribers(kind, boardId) - (if exceptSocketId.Some? then {exceptSocketId.value} else {})
    {
      var room := RoomOf(kind, boardId);
      heard := if room in rooms then rooms[room] else {};
      if exceptSocketId.Some? {
        heard := heard - {exceptSocketId.value};
      }
    }

    // ---- Shared stretches ----

    method List(kind: M.Kind, code: Code, client: SocketData)
      requires Valid() && Connected(client) && code in codes
      modifies client
      ensures Valid() && OthersKept(kind, code)
      ensures forall k :: Lists(k, kind, code) <==> k == client.id || old(Lists(k, kind, code))
    {
      match kind {
      case Code => client.boards := client.boards[code := codes[code]];
      case Sandbox => client.sandboxes := client.sandboxes[code := codes[code]];
      }
      OtherLists((client, kind, code));
    }

    method Unlist(kind: M.Kind, code: Code, client: SocketData)
      requires Valid() && Connected(client) && code in codes
      modifies client
      ensures Valid() && OthersKept(kind, code)
      ensures forall k :: Lists(k, kind, code) <==> k != client.id && old(Lists(k, kind, code))
    {
      match kind {
      case Code => client.boards := client.boards - {code};
      case Sandbox => client.sandboxes := client.sandboxes - {code};
      }
      OtherLists((client, kind, code));
    }

    method Unsubscribe(kind: M.Kind, code: Code, k: SocketId)
      requires Valid() && code in codes
      modifies this`rooms
      ensures Valid() && OthersKept(kind, code)
      ensures Subscribers(kind, codes[code]) == old(Subscribers(kind, codes[code])) - {k}
      ensures forall j, otherKind, other :: Lists(j, otherKind, other) <==> old(Lists(j, otherKind, other))
    {
      var room := RoomOf(kind, codes[code]);
      if room in rooms {
        rooms := rooms[room := rooms[room] - {k}];
      }
      OtherRooms((kind, code));
    }

    /** Touching one entry of one socket's data is noticed by its own document only. */
    twostate lemma OtherLists(touched: (SocketData, M.Kind, Code))
      requires old(Valid()) && unchanged(this) && Connected(touched.0) && Named(touched.0)
      requires forall client | client in clients.Values && client != touched.0 :: unchanged(client)
      requires forall otherKind, other | otherKind != touched.1 || other != touched.2 ::
                 other in touched.0.Opened(otherKind) <==> other in old(touched.0.Opened(otherKind))
      ensures Valid() && OthersKept(touched.1, touched.2)
      ensures forall k | k != touched.0.id :: Lists(k, touched.1, touched.2) <==> old(Lists(k, touched.1, touched.2))
    {
      forall k | k in clients && k != touched.0.id ensures clients[k] != touched.0 && unchanged(clients[k]) {
        assert clients[k] in clients.Values;
      }
      assert Valid();
      forall otherKind, other | other in codes && (otherKind != touched.1 || other != touched.2)
        ensures Kept(otherKind, other)
      {
        forall k ensures Lists(k, otherKind, other) <==> old(Lists(k, otherKind, other)) {
          if k == touched.0.id {
            assert Lists(k, otherKind, other) <==> other in touched.0.Opened(otherKind);
          }
        }
      }
    }

    /** Touching one Socket.IO room is noticed by its own document only. */
    twostate lemma OtherRooms(document: (M.Kind, Code))
      requires Valid() && document.1 in codes && clients == old(clients) && unchanged(clients.Values)
      requires var room := RoomOf(document.0, codes[document.1]); rooms - {room} == old(rooms) - {room}
      ensures OthersKept(document.0, document.1)
    {
      var (kind, code) := document;
      var room := RoomOf(kind, codes[code]);
      forall otherKind, other | other in codes && (otherKind != kind || other != code) ensures Kept(otherKind, other) {
        var elsewhere := RoomOf(otherKind, codes[other]);
        if elsewhere == room {
          RoomsAreDistinct(otherKind, codes[other], kind, codes[code]);
        }
        assert elsewhere in rooms - {room} <==> elsewhere in old(rooms) - {room};
      }
    }
  }
}
