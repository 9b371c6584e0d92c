/**
 Three departures from one room overlap, each waiting for its own save, and
 each sets an unload timer over the handle of the one before. No load and no
 save fails. BoardSplitRoom continues from here.
*/
module BoardStaleTimers {
  import opened Prelude
  import opened BoardRoom
  import opened BoardMachine
  import opened BoardUnloadRace

  predicate Healthy(s: State) {
    && s.kind.Code? && s.eviction.NotEvicted? && !s.db.deleted && s.svc.loading.None?
    && forall l | l in s.loads :: s.loads[l].Done?
  }

  /** Only these rooms and loads were ever made, and only these sockets have been seen. */
  predicate Seen(s: State, rooms: set<RoomId>, loads: set<LoadId>, sockets: set<SocketId>) {
    && s.svc.heap.Keys == rooms && s.hist.tracks.Keys == rooms
    && s.loads.Keys == loads && s.gate.phases.Keys == sockets
  }

  predicate Pending(w: Write, id: WriteId, doc: Doc) {
    w.id == id && w.room == 0 && w.doc == doc && !w.committed
  }

  /** The first two departures wait for their saves, which are still on their way. */
  predicate TwoWaiting(s: State) {
    && |s.db.writes| == 2 && Pending(s.db.writes[0], 0, SEED) && Pending(s.db.writes[1], 1, EDITED)
    && 0 in s.leaves && s.leaves[0] == PendingLeave(0, Some(0))
    && 1 in s.leaves && s.leaves[1] == PendingLeave(0, Some(1))
  }

  /** Room 0 is live with these sockets and this document, clean, and with this handle. */
  predicate Resting(s: State, sockets: set<SocketId>, doc: Doc, handle: Option<TimerId>) {
    && Healthy(s) && s.svc.live == Some(0) && 0 in s.svc.heap
    && s.svc.heap[0].sockets == sockets && s.svc.heap[0].doc == doc && s.svc.heap[0].unloadTimer == handle
    && s.svc.heap[0].dirtySince.None?
  }

  /** The second socket edits while the first one's save is still on its way. */
  lemma SecondSocketEdits() returns (t: State)
    ensures Reaches(Start(Code), t, Ordinary)
    ensures Scene(t, {"b"}, EDITED) && Member(t, "b") && t.gate.phases.Keys == {"a", "b"}
    ensures t.svc.heap[0].dirtySince.Some? && t.svc.heap[0].unloadTimer.None? && t.now == 0 && t.timers == map[]
    ensures |t.db.writes| == 1 && Pending(t.db.writes[0], 0, SEED)
    ensures t.leaves == map[0 := PendingLeave(0, Some(0))]
  {
    hide Reaches, Stamp, Relay;
    t := SecondSocketJoins();
    t := Then(Start(Code), t, Change(Edit("b", Update({1}, 1), 11)), Ordinary);
  }

  /** And leaves before it has arrived. */
  lemma SecondSocketLeaves() returns (t: State)
    ensures Reaches(Start(Code), t, Ordinary)
    ensures Resting(t, {}, EDITED, None) && Seen(t, {0}, {0}, {"a", "b"}) && t.now == 0 && t.timers == map[]
    ensures TwoWaiting(t) && t.leaves.Keys == {0, 1}
  {
    hide Reaches;
    t := SecondSocketEdits();
    t := Then(Start(Code), t, Session(Unsubscribe("b")), Ordinary);
    t := Then(Start(Code), t, Session(LeaveStart("b", 1, 1)), Ordinary);
  }

  /** A third socket passes by; with nothing to save, it is the first to set a timer. */
  lemma ThirdSocketJoins() returns (t: State)
    ensures Reaches(Start(Code), t, Ordinary)
    ensures Resting(t, {"c"}, EDITED, None) && Seen(t, {0}, {0}, {"a", "b", "c"}) && t.now == 0 && t.timers == map[]
    ensures Member(t, "c")
    ensures TwoWaiting(t) && t.leaves.Keys == {0, 1}
  {
    hide Reaches, InFlight, NewRoom;
    t := SecondSocketLeaves();
    t := Then(Start(Code), t, Session(Subscribe("c")), Ordinary);
    t := Then(Start(Code), t, Session(RequestRoom("c", 1)), Ordinary);
    t := Then(Start(Code), t, Session(JoinFinish("c")), Ordinary);
  }

  lemma ThirdSocketLeaves() returns (t: State)
    ensures Reaches(Start(Code), t, Ordinary)
    ensures Resting(t, {}, EDITED, None) && Seen(t, {0}, {0}, {"a", "b", "c"}) && t.now == 0 && t.timers == map[]
    ensures TwoWaiting(t) && t.leaves.Keys == {0, 1, 2} && t.leaves[2] == PendingLeave(0, None)
  {
    hide Reaches;
    t := ThirdSocketJoins();
    t := Then(Start(Code), t, Session(Unsubscribe("c")), Ordinary);
    t := Then(Start(Code), t, Session(LeaveStart("c", 2, 2)), Ordinary);
  }

  lemma FirstTimerIsSet() returns (t: State)
    ensures Reaches(Start(Code), t, Ordinary)
    ensures Resting(t, {}, EDITED, Some(0)) && Seen(t, {0}, {0}, {"a", "b", "c"}) && t.now == 1
    ensures t.timers == map[0 := UnloadTimer(0, IDLE_UNLOAD_MS)]
    ensures TwoWaiting(t) && t.leaves.Keys == {0, 1}
  {
    hide Reaches;
    t := ThirdSocketLeaves();
    t := Then(Start(Code), t, Session(LeaveFinish(2, 0)), Ordinary);
    t := Then(Start(Code), t, Life(Tick(1)), Ordinary);
  }

  /** The oldest write outstanding is committed and answered. */
  lemma OldestSaveEnds(s: State, sockets: set<SocketId>, handle: TimerId)
    returns (t: State)
    requires Reaches(Start(Code), s, Ordinary)
    requires Resting(s, {}, EDITED, Some(handle)) && Seen(s, {0}, {0}, sockets)
    requires s.db.writes != [] && s.db.writes[0].room == 0 && !s.db.writes[0].committed
    ensures Reaches(Start(Code), t, Ordinary)
    ensures Resting(t, {}, EDITED, Some(handle)) && Seen(t, {0}, {0}, sockets)
    ensures t.now == s.now && t.timers == s.timers && t.leaves == s.leaves
    ensures t.db == Database(s.db.writes[1..], Some(s.db.writes[0].doc), false)
  {
    hide Reaches;
    t := Then(Start(Code), s, Saving(Commit(0)), Ordinary);
    t := Then(Start(Code), t, Saving(SaveOk(0)), Ordinary);
    assert t.db.writes == s.db.writes[1..];
  }

  lemma SecondTimerIsSet() returns (t: State)
    ensures Reaches(Start(Code), t, Ordinary)
    ensures Resting(t, {}, EDITED, Some(1)) && Seen(t, {0}, {0}, {"a", "b", "c"}) && t.now == 2
    ensures t.timers == map[0 := UnloadTimer(0, IDLE_UNLOAD_MS), 1 := UnloadTimer(0, IDLE_UNLOAD_MS + 1)]
    ensures |t.db.writes| == 1 && Pending(t.db.writes[0], 1, EDITED)
    ensures t.leaves == map[1 := PendingLeave(0, Some(1))]
  {
    hide Reaches;
    var s := FirstTimerIsSet();
    t := OldestSaveEnds(s, {"a", "b", "c"}, 0);
    t := Then(Start(Code), t, Session(LeaveFinish(0, 1)), Ordinary);
    t := Then(Start(Code), t, Life(Tick(1)), Ordinary);
  }

  lemma ThirdTimerIsSet() returns (t: State)
    ensures Reaches(Start(Code), t, Ordinary)
    ensures Resting(t, {}, EDITED, Some(2)) && Seen(t, {0}, {0}, {"a", "b", "c"}) && t.now == 2
    ensures t.timers == map[0 := UnloadTimer(0, IDLE_UNLOAD_MS), 1 := UnloadTimer(0, IDLE_UNLOAD_MS + 1),
                            2 := UnloadTimer(0, IDLE_UNLOAD_MS + 2)]
    ensures t.db == Database([], Some(EDITED), false) && t.leaves == map[]
  {
    hide Reaches;
    var s := SecondTimerIsSet();
    t := OldestSaveEnds(s, {"a", "b", "c"}, 1);
    t := Then(Start(Code), t, Session(LeaveFinish(1, 2)), Ordinary);
  }
}
