/**
 Presence ownership: every cursor a room shows belongs to a socket in it, so
 an empty room shows none and a leaving socket takes all of its own away.
*/
module BoardPresence {
  import opened Prelude
  import opened BoardRoom
  import opened BoardMachine
  import opened BoardRoomEvents

  /** Some socket in the room speaks for this id. */
  predicate Claimed(room: Room, id: ClientId) {
    exists socket | socket in room.clients :: id in room.clients[socket]
  }

  ghost predicate OwnedRoom(room: Room) {
    && room.clients.Keys <= room.sockets
    && forall id | id in room.presence :: Claimed(room, id)
  }

  /** No id comes back as `updated` after its owner gave it up. */
  predicate Reclaimed(room: Room, change: PresenceChange) {
    forall id | id in change.updated :: Claimed(room, id)
  }

  /** A claim survives a change unless the change itself removes the id. */
  lemma ClaimKept(room: Room, socket: SocketId, change: PresenceChange, id: ClientId)
    requires socket in room.sockets && Claimed(room, id) && id !in change.removed
    ensures Claimed(ChangePresence(room, socket, change), id)
  {
    var owner :| owner in room.clients && id in room.clients[owner];
    var after := ChangePresence(room, socket, change);
    assert owner in after.clients && id in after.clients[owner];
  }

  /**
   The exact condition. An awareness change keeps ownership if and only if it
   updates claimed ids only. Reading `added` as "was not showing before" gives
   that for free; y-protocols reads it as "was never seen", and then a cursor
   cleared and shown again is `updated` while nobody claims it.
  */
  lemma ChangeKeepsOwnershipExactly(room: Room, socket: SocketId, change: PresenceChange)
    requires OwnedRoom(room) && socket in room.sockets && Classified(room, change)
    ensures OwnedRoom(ChangePresence(room, socket, change)) <==> Reclaimed(room, change)
  {
    var after := ChangePresence(room, socket, change);
    if Reclaimed(room, change) {
      forall id | id in after.presence ensures Claimed(after, id) {
        if id in change.added {
          assert socket in after.clients && id in after.clients[socket];
        } else {
          ClaimKept(room, socket, change, id);
        }
      }
    }
    if OwnedRoom(after) {
      forall id | id in change.updated ensures Claimed(room, id) {
        assert id in after.presence;
        var owner :| owner in after.clients && id in after.clients[owner];
        assert owner in room.clients && id in room.clients[owner];
      }
    }
  }

  /** With `added` read as "was not showing before", every change is reclaimed. */
  lemma ShownUpdatesAreReclaimed(room: Room, change: PresenceChange)
    requires OwnedRoom(room) && change.updated <= room.presence
    ensures Reclaimed(room, change)
  {
  }

  /** A cursor cleared by its owner and shown again outlives the owner's departure. */
  lemma ReshownCursorOutlivesItsSocket(room: Room, socket: SocketId, id: ClientId)
    requires OwnedRoom(room) && socket in room.sockets && id !in room.presence && !Claimed(room, id)
    ensures
      var added := ChangePresence(room, socket, PresenceChange({id}, {}, {}));
      var cleared := ChangePresence(added, socket, PresenceChange({}, {}, {id}));
      var shown := ChangePresence(cleared, socket, PresenceChange({}, {id}, {}));
      && id in Drop(shown, socket).presence
      && id !in Drop(added, socket).presence
  {
    var added := ChangePresence(room, socket, PresenceChange({id}, {}, {}));
    var cleared := ChangePresence(added, socket, PresenceChange({}, {}, {id}));
    assert id !in cleared.clients[socket];
  }

  lemma DropKeepsOwnership(room: Room, socket: SocketId)
    requires OwnedRoom(room)
    ensures OwnedRoom(Drop(room, socket))
  {
    var after := Drop(room, socket);
    forall id | id in after.presence ensures Claimed(after, id) {
      var owner :| owner in room.clients && id in room.clients[owner];
      assert owner in after.clients && id in after.clients[owner];
    }
  }

  ghost predicate Owners(room: Room, track: Track) {
    OwnedRoom(room)
  }

  /** A change is made by a socket in the room, and updates claimed ids only. */
  predicate Reclaiming(room: Room, event: RoomEvent) {
    event.Shown? ==>
      event.socket in room.sockets && Classified(room, event.change) && Reclaimed(room, event.change)
  }

  /** The assumption under which ownership holds over whole runs. */
  predicate Reclaims(s: State, step: Step) {
    if step.Change? && step.edit.Presence? then ReclaimsStep(s.svc, step.edit.socket, step.edit.change) else true
  }

  predicate ReclaimsStep(svc: Service, socket: SocketId, change: PresenceChange) {
    var at := Current(svc, socket);
    at.Some? ==> Reclaimed(svc.heap[at.value], change)
  }

  /** Ownership only looks at three fields, and more sockets do no harm. */
  lemma SameOwners(a: Room, b: Room)
    requires OwnedRoom(a)
    requires a.presence == b.presence && a.clients == b.clients && a.sockets <= b.sockets
    ensures OwnedRoom(b)
  {
    forall id | id in b.presence ensures Claimed(b, id) {
      assert Claimed(a, id);
    }
  }

  lemma ExpiryKeepsOwnership(room: Room, ids: set<ClientId>)
    requires OwnedRoom(room)
    ensures OwnedRoom(ExpirePresence(room, ids))
  {
    forall id | id in room.presence - ids ensures Claimed(ExpirePresence(room, ids), id) {
      assert Claimed(room, id);
    }
  }

  lemma OwnershipLasts()
    ensures Lasting(Owners, Reclaiming)
  {
    forall room, track, event, now | Owners(room, track) && Reclaiming(room, event)
      ensures Owners(RoomAfter(room, event, now), TrackAfter(room, track, event, now))
    {
      EventKeepsOwnership(room, event, now);
    }
  }

  lemma EventKeepsOwnership(room: Room, event: RoomEvent, now: nat)
    requires OwnedRoom(room) && Reclaiming(room, event)
    ensures OwnedRoom(RoomAfter(room, event, now))
  {
    var after := RoomAfter(room, event, now);
    match event
    case Left(k) =>
      hide OwnedRoom, Drop;
      DropKeepsOwnership(room, k);
      SameOwners(Drop(room, k), after);
    case Shown(k, change) =>
      hide OwnedRoom, ChangePresence;
      ChangeKeepsOwnershipExactly(room, k, change);
    case Expired(ids) =>
      hide OwnedRoom, ExpirePresence;
      ExpiryKeepsOwnership(room, ids);
    case _ =>
      hide OwnedRoom;
      SameOwners(room, after);
  }

  lemma ReclaimingStep(s: State, step: Step)
    requires Enabled(s, step) && Reclaims(s, step)
    ensures OnlySort(s, step, Reclaiming)
  {
    hide Classified, Reclaimed, SessionEnabled, SaveEnabled, LifeEnabled, LoadEnabled, SessionEvent, SavingEvent,
         LifeEvent;
    forall id | id in s.svc.heap ensures Reclaiming(s.svc.heap[id], EventOf(s, step, id)) {
      OnlyChangesShow(s, step, id);
    }
  }

  lemma OnlyChangesShow(s: State, step: Step, id: RoomId)
    requires Enabled(s, step)
    ensures EventOf(s, step, id).Shown? ==> step.Change? && step.edit.Presence?
  {
  }

  // ---- Whole runs ----

  /** y-protocols' `added` is read as "was not showing before": what it calls updated was showing. */
  predicate AddedMeansNotShown(s: State, step: Step) {
    if step.Change? && step.edit.Presence? then UpdatesShown(s.svc, step.edit.socket, step.edit.change) else true
  }

  predicate UpdatesShown(svc: Service, socket: SocketId, change: PresenceChange) {
    var at := Current(svc, socket);
    at.Some? ==> change.updated <= svc.heap[at.value].presence
  }

  /** Where every cursor has an owner, updating shown cursors updates claimed ones. */
  lemma ShownStepReclaims(s: State, step: Step)
    requires Everywhere(s, Owners) && AddedMeansNotShown(s, step)
    ensures Reclaims(s, step)
  {
    if step.Change? && step.edit.Presence? {
      var at := Current(s.svc, step.edit.socket);
      if at.Some? {
        ShownUpdatesAreReclaimed(s.svc.heap[at.value], step.edit.change);
      }
    }
  }

  lemma {:induction false} RunKeepsOwnership(s: State, steps: seq<Step>, t: State)
    requires Everywhere(s, Owners) && Run(s, steps, t, AddedMeansNotShown)
    ensures Everywhere(t, Owners)
    decreases |steps|
  {
    hide Everywhere, Enabled, Apply, Reclaims, AddedMeansNotShown, Lasting, OnlySort;
    if steps != [] {
      ShownStepReclaims(s, steps[0]);
      OwnershipLasts();
      ReclaimingStep(s, steps[0]);
      StepKeepsEverywhere(s, steps[0], Owners, Reclaiming);
      RunKeepsOwnership(Apply(s, steps[0]), steps[1..], t);
    }
  }

  /**
   In every run, a cursor shown in a room belongs to a socket that is in it,
   whatever joined, left, timed out or closed.
  */
  lemma {:induction false} PresenceIsOwned(kind: Kind, steps: seq<Step>, t: State, id: RoomId, client: ClientId)
    requires Run(Start(kind), steps, t, AddedMeansNotShown)
    requires id in t.svc.heap && client in t.svc.heap[id].presence
    ensures exists socket | socket in t.svc.heap[id].sockets ::
              socket in t.svc.heap[id].clients && client in t.svc.heap[id].clients[socket]
  {
    hide Run, AddedMeansNotShown;
    RunKeepsOwnership(Start(kind), steps, t);
    var room := t.svc.heap[id];
    assert OwnedRoom(room) && Claimed(room, client);
  }

  /** The same under the weakest assumption there is on one change: updated ids are claimed. */
  lemma {:induction false} ReclaimingRunsKeepOwnership(s: State, steps: seq<Step>, t: State)
    requires Everywhere(s, Owners) && Run(s, steps, t, Reclaims)
    ensures Everywhere(t, Owners)
  {
    hide Everywhere, Run, Reclaims, Lasting, OnlySort;
    OwnershipLasts();
    forall u, step | Enabled(u, step) && Reclaims(u, step) ensures OnlySort(u, step, Reclaiming) {
      ReclaimingStep(u, step);
    }
    RunKeepsEverywhere(s, steps, t, Reclaims, Owners, Reclaiming);
  }

  /** A room nobody is in shows no cursors, in every state a run can reach. */
  lemma {:induction false} EmptyRoomShowsNoCursors(kind: Kind, steps: seq<Step>, t: State, id: RoomId)
    requires Run(Start(kind), steps, t, AddedMeansNotShown)
    requires id in t.svc.heap && t.svc.heap[id].sockets == {}
    ensures t.svc.heap[id].presence == {}
  {
    hide Run, AddedMeansNotShown;
    forall client | client in t.svc.heap[id].presence ensures false {
      PresenceIsOwned(kind, steps, t, id, client);
    }
  }

  lemma WhatIsLeft(room: Room, socket: SocketId)
    requires OwnedRoom(room)
    ensures LeftBy(room, socket, LastOut(Drop(room, socket)))
  {
    var after := LastOut(Drop(room, socket));
    DropKeepsOwnership(room, socket);
    assert after.clients == Drop(room, socket).clients && after.sockets == Drop(room, socket).sockets;
    forall client | client in after.presence ensures Claimed(after, client) {
      assert Claimed(Drop(room, socket), client);
    }
  }

  /** The socket is out with all its cursors, and every cursor left is owned by a socket still there. */
  ghost predicate LeftBy(before: Room, socket: SocketId, after: Room) {
    && after.presence == before.presence - Owned(before, socket)
    && socket !in after.sockets && socket !in after.clients
    && OwnedRoom(after)
  }

  /** A socket that leaves takes away its cursors, and every other cursor keeps an owner. */
  lemma {:induction false} LeaverTakesItsCursors(kind: Kind, steps: seq<Step>, s: State,
                                                 socket: SocketId, leave: LeaveId, write: WriteId)
    requires Run(Start(kind), steps, s, AddedMeansNotShown)
    requires SessionEnabled(s, LeaveStart(socket, leave, write)) && Current(s.svc, socket).Some?
    ensures LeftBy(s.svc.heap[s.svc.live.value], socket,
                   SessionApply(s, LeaveStart(socket, leave, write)).svc.heap[s.svc.live.value])
  {
    RunKeepsOwnership(Start(kind), steps, s);
    hide Run, AddedMeansNotShown, InFlight, LeftBy, Drop, LastOut, OwnedRoom;
    assert OwnedRoom(s.svc.heap[s.svc.live.value]);
    WhatIsLeft(s.svc.heap[s.svc.live.value], socket);
  }

  // ---- What is shown, exactly ----

  /** The message is applied: its socket is in the live room, lists the document, and says little enough. */
  predicate Applies(s: State, step: Step, id: RoomId) {
    && step.Change? && step.edit.Presence? && s.svc.live == Some(id) && id in s.svc.heap
    && step.edit.socket in s.svc.heap[id].sockets && step.edit.socket in s.gate.registered
    && step.edit.bytes <= 256 * 1024
  }

  predicate Shows(s: State, step: Step, id: RoomId, client: ClientId) {
    Applies(s, step, id) && (client in step.edit.change.added || client in step.edit.change.updated)
  }

  /** A cursor goes when a change removes it, when it times out, and when a socket that claims it leaves. */
  predicate Takes(s: State, step: Step, id: RoomId, client: ClientId) {
    || (Applies(s, step, id) && client in step.edit.change.removed)
    || (step.Change? && step.edit.PresenceTimeout? && step.edit.room == id && client in step.edit.ids)
    || (step.Session? && step.session.LeaveStart? && TakesAlong(s.svc, step.session.socket, id, client))
  }

  predicate TakesAlong(svc: Service, socket: SocketId, id: RoomId, client: ClientId) {
    && svc.live == Some(id) && id in svc.heap && socket in svc.heap[id].sockets
    && socket in svc.heap[id].clients && client in svc.heap[id].clients[socket]
  }

  lemma EventShowsExactly(room: Room, event: RoomEvent, now: nat, client: ClientId)
    requires event.Shown? ==> Classified(room, event.change)
    ensures client in RoomAfter(room, event, now).presence <==>
            || (event.Shown? && (client in event.change.added || client in event.change.updated))
            || (client in room.presence
                && !(event.Shown? && client in event.change.removed) && !(event.Expired? && client in event.ids)
                && !(event.Left? && client in Owned(room, event.socket)))
  {
  }

  /** After a step a cursor is shown if and only if the step shows it, or it was shown and the step does not take it. */
  lemma CursorsChangeExactly(s: State, step: Step, id: RoomId, client: ClientId)
    requires Enabled(s, step) && id in s.svc.heap && id in s.hist.tracks
    ensures
      var t := Apply(s, step);
      && id in t.svc.heap
      && (client in t.svc.heap[id].presence <==>
            Shows(s, step, id, client) || (client in s.svc.heap[id].presence && !Takes(s, step, id, client)))
  {
    StepFollows(s, step, id);
    hide Apply, RoomAfter, TrackAfter, SaveEnabled, LoadEnabled, InFlight, TooLarge, Unloadable;
    EventShowsExactly(s.svc.heap[id], EventOf(s, step, id), s.now, client);
  }

  /** A room just loaded shows nobody. */
  lemma NewRoomShowsNobody(doc: Doc, seeded: bool, now: nat)
    ensures NewRoom(doc, seeded, now).presence == {}
  {
  }

  lemma {:induction false} CursorStays(s: State, steps: seq<Step>, t: State, id: RoomId, client: ClientId)
    requires Tracked(s) && Run(s, steps, t, (u, step) => !Takes(u, step, id, client))
    requires id in s.svc.heap && client in s.svc.heap[id].presence
    ensures id in t.svc.heap && client in t.svc.heap[id].presence
    decreases |steps|
  {
    hide Enabled, Apply, Takes, Shows;
    if steps != [] {
      StepMakes(s, steps[0], id);
      CursorsChangeExactly(s, steps[0], id, client);
      CursorStays(Apply(s, steps[0]), steps[1..], t, id, client);
    }
  }

  /**
   In every run, a cursor that a joined socket shows stays shown, to whoever
   joins next as well, until a change removes it, it times out, or a socket
   that claims it leaves.
  */
  lemma {:induction false} CursorStaysUntilTaken(kind: Kind, past: seq<Step>, s: State, allowed: Assumption, step: Step,
                                                 steps: seq<Step>, t: State, id: RoomId, client: ClientId)
    requires Run(Start(kind), past, s, allowed) && Enabled(s, step) && Shows(s, step, id, client)
    requires Run(Apply(s, step), steps, t, (u, later) => !Takes(u, later, id, client))
    ensures id in t.svc.heap && client in t.svc.heap[id].presence
  {
    hide Run, Enabled, Apply;
    RunKeepsTracks(Start(kind), past, s, allowed);
    StepMakes(s, step, id);
    CursorsChangeExactly(s, step, id, client);
    CursorStays(Apply(s, step), steps, t, id, client);
  }
}
