/**
 A run with timers that are not keyed. After the departures of BoardStaleTimers
 the timers fire in the order they were set. The first closes the room and
 clears only the last handle; by the time the second fires, somebody has opened
 the document again, and `unload` deletes the new room from the map although it
 was asked to unload the old one. Whoever is in the new room is cut off, and
 the next visitor gets a third room beside it.
*/
module BoardSplitRoom {
  import opened Prelude
  import opened BoardRoom
  import opened BoardMachine
  import opened BoardReopening
  import opened BoardUnloadRace
  import opened BoardStaleTimers

  /** The document is stored and closed, and nobody is loading it. */
  predicate Shut(s: State, rooms: set<RoomId>, loads: set<LoadId>, sockets: set<SocketId>) {
    && Healthy(s) && s.svc.live.None? && Seen(s, rooms, loads, sockets) && s.db == Database([], Some(EDITED), false)
  }

  /** A timer is still set for room 0, which is gone. */
  predicate Stale(s: State, timer: TimerId) {
    && 0 in s.svc.heap && s.svc.heap[0].disposed && Unloadable(s.svc.heap[0]) && s.svc.heap[0].unloadTimer == Some(2)
    && timer in s.timers && s.timers[timer] == UnloadTimer(0, IDLE_UNLOAD_MS + 1)
  }

  lemma FirstTimerFires() returns (t: State)
    ensures Reaches(Start(Code), t, Ordinary)
    ensures Shut(t, {0}, {0}, {"a", "b", "c"}) && Stale(t, 1) && t.now == IDLE_UNLOAD_MS
  {
    hide Reaches;
    t := ThirdTimerIsSet();
    t := Then(Start(Code), t, Life(Tick(IDLE_UNLOAD_MS - 2)), Ordinary);
    t := Then(Start(Code), t, Life(UnloadTimerFires(0)), Ordinary);
  }

  /** The socket is alone in a room the map holds. */
  predicate Alone(s: State, k: SocketId, room: RoomId) {
    && Healthy(s) && s.svc.live == Some(room) && room in s.svc.heap && !s.svc.heap[room].disposed
    && s.svc.heap[room].sockets == {k} && k in s.gate.phases && s.gate.phases[k] == Open(room)
    && s.db == Database([], Some(EDITED), false)
  }

  /** Whoever opens a shut document is alone in the new room. */
  lemma OpensAlone(s: State, k: SocketId, l: LoadId, room: RoomId, rooms: set<RoomId>, loads: set<LoadId>,
                   sockets: set<SocketId>)
    returns (t: State)
    requires Shut(s, rooms, loads, sockets) && k !in sockets && l !in loads && room !in rooms
    ensures Reaches(s, t, Ordinary) && Alone(t, k, room) && t.now == s.now && t.timers == s.timers
    ensures Seen(t, rooms + {room}, loads + {l}, sockets + {k})
    ensures forall id | id in rooms :: t.svc.heap[id] == s.svc.heap[id]
    ensures forall other | other in sockets :: t.gate.phases[other] == s.gate.phases[other]
  {
    hide Reaches;
    t := OpensAgain(s, k, l, room);
  }

  /** Socket "d" opens the document again. */
  lemma FourthSocketOpens() returns (t: State)
    ensures Reaches(Start(Code), t, Ordinary) && Alone(t, "d", 1) && Stale(t, 1) && t.now == IDLE_UNLOAD_MS
    ensures Seen(t, {0, 1}, {0, 1}, {"a", "b", "c", "d"})
  {
    hide Reaches;
    var s := FirstTimerFires();
    t := OpensAlone(s, "d", 1, 1, {0}, {0}, {"a", "b", "c"});
    Onwards(Start(Code), s, t, Ordinary);
  }

  /** The timer of room 0 takes room 1 out of the map. */
  lemma SecondTimerFires() returns (t: State)
    ensures Reaches(Start(Code), t, Faultless)
    ensures Shut(t, {0, 1}, {0, 1}, {"a", "b", "c", "d"})
    ensures !t.svc.heap[1].disposed && "d" in t.svc.heap[1].sockets && t.gate.phases["d"] == Open(1)
  {
    hide Reaches;
    t := FourthSocketOpens();
    OrdinaryReaches(Start(Code), t);
    t := Then(Start(Code), t, Life(Tick(1)), Faultless);
    t := Then(Start(Code), t, Life(UnloadTimerFires(1)), Faultless);
  }

  /** Two rooms of one document are in use at once; whoever is in the first is no longer served. */
  predicate SplitInTwo(s: State, stranded: SocketId, first: RoomId, second: RoomId) {
    && s.eviction.NotEvicted? && first != second
    && first in s.svc.heap && !s.svc.heap[first].disposed && stranded in s.svc.heap[first].sockets
    && s.svc.live == Some(second) && second in s.svc.heap && !s.svc.heap[second].disposed
    && stranded in s.gate.phases && s.gate.phases[stranded] == Open(first)
    && stranded !in s.svc.heap[second].sockets
  }

  /**
   A run of ordinary steps, no fault and no eviction, that ends with two rooms
   in use and an open socket outside the live one: the conclusions of
   BoardSharing.AtMostOneLoadAndOneRoom and BoardRelay.NoMissedUpdate both fail.
  */
  lemma StaleTimersSplitTheRoom() returns (t: State)
    ensures Reaches(Start(Code), t, Faultless) && SplitInTwo(t, "d", 1, 2)
  {
    hide Reaches;
    var s := SecondTimerFires();
    t := OpensAlone(s, "e", 2, 2, {0, 1}, {0, 1}, {"a", "b", "c", "d"});
    OrdinaryReaches(s, t);
    Onwards(Start(Code), s, t, Faultless);
  }

  /** What a stranded socket writes is ignored, whatever it is. */
  lemma StrandedEditsAreIgnored(s: State, stranded: SocketId, first: RoomId, second: RoomId, update: Update, size: nat)
    requires SplitInTwo(s, stranded, first, second) && EditEnabled(s, Edit(stranded, update, size))
    ensures EditApply(s, Edit(stranded, update, size)) == s
  {
    assert Current(s.svc, stranded).None?;
  }
}
