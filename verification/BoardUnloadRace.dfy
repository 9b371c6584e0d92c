/**
 Why durability needs more than keyed timers. `leave` overwrites the room's
 timer handle without clearing it, so a timer from an earlier departure can
 fire while the write of a later one is still outstanding. The room is clean
 and empty, so it unloads; whoever opens the document next is given the row as
 it was before that write, and their next save overwrites it. No load and no
 save fails.
*/
module BoardUnloadRace {
  import opened Prelude
  import opened BoardRoom
  import opened BoardMachine
  import opened BoardSharing
  import opened BoardDurability
  import opened BoardLoss
  import opened BoardReopening

  // ---- From a room that closed too soon to the loss ----

  /** An accepted edit that the row lacks, with any number of writes on their way, none of them this room's. */
  predicate Outstanding(s: State, op: Op, room: Option<RoomId>) {
    && s.eviction.NotEvicted? && !s.db.deleted && op in s.hist.accepted
    && forall i | 0 <= i < |s.db.writes| ::
         s.db.writes[i].room in s.svc.heap && s.db.writes[i].room in s.hist.tracks && room != Some(s.db.writes[i].room)
  }

  /** The document closed over a row that lacks the edit, and the row is below the cap. */
  predicate ClosedTooSoon(s: State, op: Op) {
    Openable(s) && Outstanding(s, op, None) && op !in NextDoc(s.db).ops && NextDoc(s.db).size < MAX_DOC_BYTES
  }

  /** The next socket to open the document is in a room that lacks the edit. */
  predicate GivenTheOldRow(s: State, op: Op, k: SocketId, room: RoomId) {
    && Outstanding(s, op, Some(room)) && room in s.svc.heap && room in s.hist.tracks && s.svc.live == Some(room)
    && k in s.gate.registered && k in s.svc.heap[room].sockets
    && op !in s.svc.heap[room].doc.ops
    && s.svc.heap[room].bytes == s.svc.heap[room].doc.size < MAX_DOC_BYTES
    && (s.svc.heap[room].dirtySince.Some? ==> s.svc.heap[room].dirtySince.value == s.now)
  }

  /** That socket's own edit is about to be written over the late writes. */
  predicate Overwriting(s: State, op: Op, room: RoomId) {
    && room in s.svc.heap && room in s.hist.tracks && s.svc.live == Some(room)
    && s.eviction.NotEvicted? && !s.db.deleted
    && op !in s.svc.heap[room].doc.ops && op in s.hist.accepted
    && s.svc.heap[room].dirtySince.Some? && s.svc.heap[room].saveTimer == Some(s.now + SAVE_DEBOUNCE_MS)
    && s.db.writes == []
  }

  lemma SomebodyIsGivenTheOldRow(s: State, op: Op) returns (t: State, k: SocketId, room: RoomId)
    requires ClosedTooSoon(s, op)
    ensures Reaches(s, t, Ordinary) && GivenTheOldRow(t, op, k, room)
  {
    hide Reaches, Openable;
    t, k, room := SomebodyOpens(s);
  }

  /** Every write on its way is committed and answered. */
  lemma {:induction false} LateWritesEnd(s: State, op: Op, k: SocketId, room: RoomId) returns (t: State)
    requires GivenTheOldRow(s, op, k, room)
    ensures Reaches(s, t, Ordinary) && GivenTheOldRow(t, op, k, room) && t.db.writes == []
    decreases |s.db.writes|
  {
    hide Reaches;
    ReachesItself(s, Ordinary);
    t := s;
    if s.db.writes != [] {
      if !s.db.writes[0].committed {
        t := Then(s, t, Saving(Commit(0)), Ordinary);
      }
      t := Then(s, t, Saving(SaveOk(0)), Ordinary);
      var u := LateWritesEnd(t, op, k, room);
      Onwards(s, t, u, Ordinary);
      t := u;
    }
  }

  lemma EditsTheOldRow(s: State, op: Op, k: SocketId, room: RoomId) returns (t: State)
    requires GivenTheOldRow(s, op, k, room) && s.db.writes == []
    ensures Reaches(s, t, Ordinary) && Overwriting(t, op, room)
  {
    hide Reaches, Relay, Run;
    var doc := s.svc.heap[room].doc;
    var own := FreshNumber(doc.ops + {op});
    assert own !in doc.ops && own != op && own in {own};
    ReachesItself(s, Ordinary);
    t := Then(s, s, Change(Edit(k, Update({own}, 1), doc.size + 1)), Ordinary);
  }

  lemma SavesTheOldRow(s: State, op: Op, room: RoomId) returns (t: State)
    requires Overwriting(s, op, room)
    ensures Reaches(s, t, Ordinary) && Lost(t, op)
  {
    hide Reaches;
    ReachesItself(s, Ordinary);
    t := Then(s, s, Life(Tick(SAVE_DEBOUNCE_MS)), Ordinary);
    t := Then(s, t, Saving(SaveTimerFires(room, 0)), Ordinary);
    t := Then(s, t, Saving(Commit(0)), Ordinary);
    t := Then(s, t, Saving(SaveOk(0)), Ordinary);
  }

  /** Some later run, in which nothing fails and timers are keyed, loses the edit. */
  ghost predicate CanBeLostWithoutFault(s: State, op: Op) {
    exists t: State :: Reaches(s, t, Ordinary) && Lost(t, op)
  }

  /** The next visitor's save overwrites whatever the late writes brought. */
  lemma ClosingTooSoonCanLose(s: State, op: Op)
    requires ClosedTooSoon(s, op)
    ensures CanBeLostWithoutFault(s, op)
  {
    hide Reaches, ClosedTooSoon, GivenTheOldRow, Overwriting, Lost;
    var joined, k, room := SomebodyIsGivenTheOldRow(s, op);
    var quiet := LateWritesEnd(joined, op, k, room);
    var edited := EditsTheOldRow(quiet, op, k, room);
    var t := SavesTheOldRow(edited, op, room);
    Onwards(s, joined, quiet, Ordinary);
    Onwards(s, quiet, edited, Ordinary);
    Onwards(s, edited, t, Ordinary);
  }

  /**
   The exact condition without faults. When every closing so far was calm and
   the row is below the cap, an accepted edit can be lost after this closing,
   no load and no save failing, if and only if the row does not have it.
  */
  lemma {:induction false} RowDecidesLossWithoutFault(kind: Kind, past: seq<Step>, s: State, timer: TimerId, op: Op)
    requires Run(Start(kind), past, s, Calm) && Closing(s, timer) && op in s.hist.accepted
    requires NextDoc(s.db).size < MAX_DOC_BYTES
    ensures CanBeLostWithoutFault(AfterUnload(s, timer), op) <==> op !in Ops(s.db.store)
  {
    hide Run, Reaches, Lost, CanBeLost, CanBeLostWithoutFault, Calm, ClosedTooSoon, AfterUnload;
    var closed := AfterUnload(s, timer);
    if op in Ops(s.db.store) {
      RowDecidesLoss(kind, past, s, timer, op);
      WithoutFaultIsLoss(closed, op);
    } else {
      ClosesTooSoon(kind, past, s, timer, op);
      ClosingTooSoonCanLose(closed, op);
    }
  }

  lemma WithoutFaultIsLoss(s: State, op: Op)
    ensures CanBeLostWithoutFault(s, op) ==> CanBeLost(s, op)
  {
    hide Run, Lost;
    if CanBeLostWithoutFault(s, op) {
      var t: State :| Reaches(s, t, Ordinary) && Lost(t, op);
      OrdinaryReaches(s, t);
      var steps :| Run(s, steps, t, Keyed);
    }
  }

  lemma {:induction false} ClosesTooSoon(kind: Kind, past: seq<Step>, s: State, timer: TimerId, op: Op)
    requires Run(Start(kind), past, s, Calm) && Closing(s, timer) && op in s.hist.accepted
    requires NextDoc(s.db).size < MAX_DOC_BYTES && op !in Ops(s.db.store)
    ensures ClosedTooSoon(AfterUnload(s, timer), op)
  {
    hide Run, Calm, Tidy, Cancel, RealPhases, RealTimers, RealResults;
    StartIsRecorded(kind);
    RunKeepsDurable(Start(kind), past, s);
    RunIsRecorded(Start(kind), past, s, Calm);
  }

  // ---- From a cold start to a room that closes too soon ----

  const SEED := Doc({0}, 10)
  const EDITED := Doc({0, 1}, 11)

  /** Room 0 of a code document, with these sockets in it and no unload timer set on it. */
  predicate Scene(s: State, members: set<SocketId>, doc: Doc) {
    && s.kind.Code? && s.eviction.NotEvicted? && s.svc.live == Some(0) && s.svc.loading.None? && !s.db.deleted
    && s.svc.heap.Keys == {0} && s.hist.tracks.Keys == {0} && s.gate.phases.Keys <= {"a", "b"}
    && s.loads.Keys == {0} && s.loads[0].Done?
    && s.svc.heap[0].sockets == members && s.svc.heap[0].doc == doc && s.svc.heap[0].bytes <= doc.size
    && s.hist.accepted == doc.ops
  }

  predicate Member(s: State, k: SocketId) {
    k in s.gate.phases && s.gate.phases[k] == Open(0) && k in s.gate.registered
  }

  predicate Opened(s: State, k: SocketId) {
    && s.kind.Code? && s.eviction.NotEvicted? && !s.db.deleted && s.now == 0
    && s.svc == Service(map[], None, Some(0)) && s.loads == map[0 := Reading]
    && s.gate.phases == map[k := Opening(OnLoad(0))] && k in s.hist.known && k in s.gate.registered
    && s.db == Database([], None, false) && s.leaves == map[] && s.timers == map[]
    && s.hist.tracks == map[] && s.hist.accepted == {}
  }

  lemma FirstSocketAsks() returns (t: State)
    ensures Reaches(Start(Code), t, Ordinary) && Opened(t, "a")
  {
    hide Reaches;
    ReachesItself(Start(Code), Ordinary);
    t := Start(Code);
    t := Then(Start(Code), t, Session(Subscribe("a")), Ordinary);
    t := Then(Start(Code), t, Session(RequestRoom("a", 0)), Ordinary);
  }

  lemma FirstSocketOpens() returns (t: State)
    ensures Reaches(Start(Code), t, Ordinary)
    ensures Scene(t, {"a"}, SEED) && Member(t, "a") && t.gate.phases.Keys == {"a"}
    ensures t.svc.heap[0].dirtySince.Some? && t.svc.heap[0].unloadTimer.None?
    ensures t.db == Database([], None, false) && t.leaves == map[] && t.timers == map[] && t.now == 0
  {
    hide Reaches, NewTrack;
    t := FirstSocketAsks();
    t := Then(Start(Code), t, Loading(LoadRead(0)), Ordinary);
    t := Then(Start(Code), t, Loading(LoadFinish(0, 0, SEED)), Ordinary);
    t := Then(Start(Code), t, Loading(LoadSettle(0)), Ordinary);
    t := Then(Start(Code), t, Session(JoinFinish("a")), Ordinary);
  }

  /** It leaves, and its save is slow. */
  lemma FirstSocketLeaves() returns (t: State)
    ensures Reaches(Start(Code), t, Ordinary)
    ensures Scene(t, {}, SEED) && t.gate.phases.Keys == {"a"}
    ensures t.svc.heap[0].dirtySince.None? && t.svc.heap[0].unloadTimer.None?
    ensures t.db == Database([Write(0, 0, SEED, false, 0)], None, false)
    ensures t.leaves == map[0 := PendingLeave(0, Some(0))] && t.timers == map[] && t.now == 0
  {
    hide Reaches;
    t := FirstSocketOpens();
    t := Then(Start(Code), t, Session(Unsubscribe("a")), Ordinary);
    t := Then(Start(Code), t, Session(LeaveStart("a", 0, 0)), Ordinary);
  }

  /** Another socket asks for the room meanwhile. */
  lemma SecondSocketAsks() returns (t: State)
    ensures Reaches(Start(Code), t, Ordinary)
    ensures Scene(t, {}, SEED) && t.gate.phases.Keys == {"a", "b"}
    ensures t.gate.phases["b"] == Opening(OnRoom(0)) && "b" in t.hist.known && "b" in t.gate.registered
    ensures t.svc.heap[0].dirtySince.None? && t.svc.heap[0].unloadTimer.None?
    ensures t.db == Database([Write(0, 0, SEED, false, 0)], None, false)
    ensures t.leaves == map[0 := PendingLeave(0, Some(0))] && t.timers == map[] && t.now == 0
  {
    hide Reaches;
    t := FirstSocketLeaves();
    t := Then(Start(Code), t, Session(Subscribe("b")), Ordinary);
    t := Then(Start(Code), t, Session(RequestRoom("b", 1)), Ordinary);
  }

  lemma SecondSocketJoins() returns (t: State)
    ensures Reaches(Start(Code), t, Ordinary)
    ensures Scene(t, {"b"}, SEED) && Member(t, "b") && t.gate.phases.Keys == {"a", "b"}
    ensures t.svc.heap[0].dirtySince.None? && t.svc.heap[0].unloadTimer.None?
    ensures t.db == Database([Write(0, 0, SEED, false, 0)], None, false)
    ensures t.leaves == map[0 := PendingLeave(0, Some(0))] && t.timers == map[] && t.now == 0
  {
    hide Reaches;
    t := SecondSocketAsks();
    t := Then(Start(Code), t, Session(JoinFinish("b")), Ordinary);
  }

  /** Now the slow save is answered. */
  lemma SlowSaveEnds() returns (t: State)
    ensures Reaches(Start(Code), t, Ordinary)
    ensures Scene(t, {"b"}, SEED) && Member(t, "b")
    ensures t.db == Database([], Some(SEED), false)
    ensures t.leaves == map[0 := PendingLeave(0, Some(0))] && t.timers == map[] && t.now == 0
  {
    hide Reaches;
    t := SecondSocketJoins();
    t := Then(Start(Code), t, Saving(Commit(0)), Ordinary);
    t := Then(Start(Code), t, Saving(SaveOk(0)), Ordinary);
  }

  /** The first departure resumes and sets its unload timer, which falls due while the second socket stays. */
  lemma StaleTimerIsSet() returns (t: State)
    ensures Reaches(Start(Code), t, Ordinary)
    ensures Scene(t, {"b"}, SEED) && Member(t, "b")
    ensures t.db == Database([], Some(SEED), false) && t.leaves == map[]
    ensures t.now == IDLE_UNLOAD_MS && 0 in t.timers && t.timers[0] == UnloadTimer(0, IDLE_UNLOAD_MS)
  {
    hide Reaches;
    t := SlowSaveEnds();
    t := Then(Start(Code), t, Session(LeaveFinish(0, 0)), Ordinary);
    t := Then(Start(Code), t, Life(Tick(IDLE_UNLOAD_MS)), Ordinary);
  }

  /** The second socket edits just then. */
  lemma SecondSocketEdits() returns (t: State)
    ensures Reaches(Start(Code), t, Ordinary)
    ensures Scene(t, {"b"}, EDITED) && Member(t, "b") && t.svc.heap[0].dirtySince.Some?
    ensures t.db == Database([], Some(SEED), false) && t.leaves == map[]
    ensures t.now == IDLE_UNLOAD_MS && 0 in t.timers && t.timers[0] == UnloadTimer(0, IDLE_UNLOAD_MS)
  {
    hide Reaches, Stamp, Relay;
    t := StaleTimerIsSet();
    t := Then(Start(Code), t, Change(Edit("b", Update({1}, 1), 11)), Ordinary);
  }

  /** It leaves, its write is issued, and the old timer fires. */
  lemma RoomClosesTooSoon() returns (t: State)
    ensures Reaches(Start(Code), t, Ordinary)
    ensures ClosedTooSoon(t, 1)
  {
    hide Reaches;
    t := SecondSocketEdits();
    t := Then(Start(Code), t, Session(Unsubscribe("b")), Ordinary);
    t := Then(Start(Code), t, Session(LeaveStart("b", 1, 1)), Ordinary);
    t := Then(Start(Code), t, Life(UnloadTimerFires(0)), Ordinary);
  }

  /** Without calm timers durability is false: this run of ordinary steps, with no eviction, loses edit 1 for good. */
  lemma UnloadRaceLosesAnEdit() returns (t: State)
    ensures Reaches(Start(Code), t, Ordinary) && Lost(t, 1)
  {
    hide Reaches, ClosedTooSoon, Lost, Run;
    var closed := RoomClosesTooSoon();
    ClosingTooSoonCanLose(closed, 1);
    t :| Reaches(closed, t, Ordinary) && Lost(t, 1);
    Onwards(Start(Code), closed, t, Ordinary);
  }
}
