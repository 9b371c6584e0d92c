/**
 Shared loading: in every interleaving of opens, loads, failures, unloads and
 evictions, at most one load of the document runs, at most one room object of
 it is undisposed, and everyone waiting on one load gets the same answer.
*/
module BoardSharing {
  import opened Prelude
  import opened BoardRoom
  import opened BoardMachine

  /** The undisposed room, if any, is the one the key holds; a disposed room has no save timer. */
  ghost predicate OneRoom(svc: Service) {
    && (svc.live.Some? ==> svc.live.value in svc.heap && !svc.heap[svc.live.value].disposed)
    && (forall id | id in svc.heap :: svc.heap[id].disposed || svc.live == Some(id))
    && (forall id | id in svc.heap :: svc.heap[id].disposed ==> svc.heap[id].saveTimer.None?)
  }

  /** A load that has not finished is the one the key is loading, and then no room is live. */
  ghost predicate OneLoad(svc: Service, loads: map<LoadId, Load>) {
    && (svc.loading.Some? ==> svc.loading.value in loads)
    && (forall l | l in loads && !loads[l].Done? :: svc.loading == Some(l) && svc.live.None?)
  }

  /** Results name rooms that were made, and only an unseeded document can fail to open. */
  ghost predicate RealResults(kind: Kind, heap: map<RoomId, Room>, loads: map<LoadId, Load>) {
    forall l | l in loads && loads[l].Done? ::
      match loads[l].result case Loaded(id) => id in heap case Nothing => kind.Sandbox? case Failed => true
  }

  /** Opening sockets wait for rooms and loads that exist, and have a record of what they were sent. */
  ghost predicate RealPhases(gate: Gate, rooms: set<RoomId>, loads: set<LoadId>, known: set<SocketId>) {
    && (forall k | k in gate.phases && gate.phases[k].Opening? ::
          match gate.phases[k].on case OnRoom(id) => id in rooms case OnLoad(l) => l in loads)
    && (forall k | k in gate.phases && (gate.phases[k].Subscribed? || gate.phases[k].Opening?) :: k in known)
  }

  ghost predicate RealTimers(rooms: set<RoomId>, timers: map<TimerId, UnloadTimer>,
                             leaves: map<LeaveId, PendingLeave>)
  {
    && (forall t | t in timers :: timers[t].room in rooms)
    && (forall v | v in leaves :: leaves[v].room in rooms)
  }

  ghost predicate RealWrites(rooms: set<RoomId>, writes: seq<Write>) {
    forall i | 0 <= i < |writes| :: writes[i].room in rooms
  }

  ghost predicate Sharing(s: State) {
    && OneRoom(s.svc)
    && OneLoad(s.svc, s.loads)
    && RealResults(s.kind, s.svc.heap, s.loads)
    && RealPhases(s.gate, s.svc.heap.Keys, s.loads.Keys, s.hist.known.Keys)
    && RealTimers(s.svc.heap.Keys, s.timers, s.leaves)
    && RealWrites(s.svc.heap.Keys, s.db.writes)
    && s.hist.tracks.Keys == s.svc.heap.Keys
  }

  // ---- One component at a time ----

  /** Changing a room in place, short of disposing it or arming a disposed one, changes nothing here. */
  lemma WithKeepsOneRoom(svc: Service, id: RoomId, room: Room)
    requires OneRoom(svc) && id in svc.heap && room.disposed == svc.heap[id].disposed
    requires room.disposed ==> room.saveTimer.None? || room.saveTimer == svc.heap[id].saveTimer
    ensures OneRoom(With(svc, id, room)) && With(svc, id, room).heap.Keys == svc.heap.Keys
  {
  }

  lemma InstallKeepsOneRoom(svc: Service, id: RoomId, room: Room)
    requires OneRoom(svc) && svc.live.None? && id !in svc.heap && !room.disposed
    ensures OneRoom(Install(svc, id, room)) && Install(svc, id, room).heap.Keys == svc.heap.Keys + {id}
  {
  }

  /** What the invariant needs of a deletion by key; BoardTwoRooms shows what happens otherwise. */
  lemma UnloadKeepsOneRoom(svc: Service, id: RoomId)
    requires OneRoom(svc) && id in svc.heap
    ensures OneRoom(Unload(svc, id)) <==> (Unloadable(svc.heap[id]) ==> svc.live.None? || svc.live == Some(id))
    ensures Unload(svc, id).heap.Keys == svc.heap.Keys
  {
    if Unloadable(svc.heap[id]) && svc.live.Some? && svc.live != Some(id) {
      assert !Unload(svc, id).heap[svc.live.value].disposed;
    }
  }

  lemma EvictKeepsOneRoom(svc: Service)
    requires OneRoom(svc)
    ensures OneRoom(Evict(svc)) && Evict(svc).heap.Keys == svc.heap.Keys && Evict(svc).live.None?
  {
  }

  lemma RequestKeepsLoads(kind: Kind, svc: Service, loads: map<LoadId, Load>, newLoad: LoadId)
    requires OneRoom(svc) && OneLoad(svc, loads) && RealResults(kind, svc.heap, loads) && newLoad !in loads
    ensures OneRoom(Request(svc, newLoad).0)
    ensures OneLoad(Request(svc, newLoad).0, StartLoad(svc, loads, newLoad))
    ensures RealResults(kind, svc.heap, StartLoad(svc, loads, newLoad))
  {
  }

  lemma FinishKeepsLoads(kind: Kind, svc: Service, loads: map<LoadId, Load>, l: LoadId, id: RoomId, room: Room)
    requires OneLoad(svc, loads) && RealResults(kind, svc.heap, loads) && l in loads && loads[l].Got? && id !in svc.heap
    ensures
      var done := loads[l := Done(Outcome(kind, loads[l].stored, id))];
      var after := if Unstarted(kind, loads[l].stored) then svc else Install(svc, id, room);
      OneLoad(after, done) && RealResults(kind, after.heap, done)
  {
  }

  /** Rooms and loads are never forgotten, so references to them stay good. */
  lemma ReferencesStay(gate: Gate, rooms: set<RoomId>, loads: set<LoadId>, known: set<SocketId>,
                       timers: map<TimerId, UnloadTimer>, leaves: map<LeaveId, PendingLeave>, writes: seq<Write>,
                       rooms': set<RoomId>, loads': set<LoadId>)
    requires RealPhases(gate, rooms, loads, known) && RealTimers(rooms, timers, leaves) && RealWrites(rooms, writes)
    requires rooms <= rooms' && loads <= loads'
    ensures RealPhases(gate, rooms', loads', known) && RealTimers(rooms', timers, leaves) && RealWrites(rooms', writes)
  {
  }

  // ---- One group of steps at a time ----

  lemma LoadKeepsSharing(s: State, step: LoadStep)
    requires Sharing(s) && LoadEnabled(s, step)
    ensures Sharing(LoadApply(s, step))
  {
    match step
    case LoadFinish(l, id, doc) => LoadFinishKeepsSharing(s, l, id, doc);
    case _ =>
  }

  lemma LoadFinishKeepsSharing(s: State, l: LoadId, id: RoomId, doc: Doc)
    requires Sharing(s) && l in s.loads && s.loads[l].Got? && id !in s.svc.heap
    ensures Sharing(AfterLoad(s, l, id, doc))
  {
    hide NewTrack, Install, Outcome, Unstarted, OneRoom, RealResults, RealPhases, RealTimers, RealWrites;
    var room := NewRoom(doc, s.loads[l].stored.None?, s.now);
    FinishKeepsLoads(s.kind, s.svc, s.loads, l, id, room);
    InstallKeepsOneRoom(s.svc, id, room);
    var t := AfterLoad(s, l, id, doc);
    ReferencesStay(s.gate, s.svc.heap.Keys, s.loads.Keys, s.hist.known.Keys, s.timers, s.leaves, s.db.writes,
                   t.svc.heap.Keys, t.loads.Keys);
  }

  lemma JoinKeepsSharing(s: State, k: SocketId)
    requires Sharing(s) && SessionEnabled(s, JoinFinish(k))
    ensures Sharing(SessionApply(s, JoinFinish(k)))
  {
    hide OneRoom, OneLoad, RealResults, RealWrites, With;
    var result := Resolved(s.svc, s.loads, s.gate.phases[k].on).value;
    if result.Loaded? {
      WithKeepsSharing(s, result.room, Join(s.svc.heap[result.room], k));
    }
  }

  lemma LeaveFinishKeepsSharing(s: State, leave: LeaveId, timer: TimerId)
    requires Sharing(s) && SessionEnabled(s, LeaveFinish(leave, timer))
    ensures Sharing(SessionApply(s, LeaveFinish(leave, timer)))
  {
    hide OneRoom, OneLoad, RealResults, RealPhases, RealWrites, With, InFlight;
    var id := s.leaves[leave].room;
    WithKeepsSharing(s, id, s.svc.heap[id].(unloadTimer := Some(timer)));
  }

  lemma SessionKeepsSharing(s: State, step: SessionStep)
    requires Sharing(s) && SessionEnabled(s, step)
    ensures Sharing(SessionApply(s, step))
  {
    match step
    case RequestRoom(k, l) =>
      hide OneRoom, OneLoad, RealResults, RealTimers, RealWrites, StartLoad, Request;
      RequestKeepsLoads(s.kind, s.svc, s.loads, l);
      RequestIsReal(s.svc, s.loads, l);
    case JoinFinish(k) =>
      hide Sharing, SessionEnabled, SessionApply;
      JoinKeepsSharing(s, k);
    case LeaveStart(k, leave, write) =>
      hide Sharing, AfterLeave, InFlight;
      LeaveKeepsSharing(s, k, leave, write);
    case LeaveFinish(leave, timer) =>
      hide Sharing, SessionEnabled, SessionApply;
      LeaveFinishKeepsSharing(s, leave, timer);
    case _ =>
      hide OneRoom, OneLoad, RealResults, RealTimers, RealWrites;
  }

  lemma RequestIsReal(svc: Service, loads: map<LoadId, Load>, newLoad: LoadId)
    requires OneRoom(svc) && OneLoad(svc, loads)
    ensures
      var (after, waiting) := Request(svc, newLoad);
      && after.heap == svc.heap
      && match waiting case OnRoom(id) => id in svc.heap case OnLoad(l) => l in StartLoad(svc, loads, newLoad)
    ensures loads.Keys <= StartLoad(svc, loads, newLoad).Keys
  {
  }

  /** The service's part of a step that changes one room in place. */
  lemma WithKeepsSharing(s: State, id: RoomId, room: Room)
    requires Sharing(s) && id in s.svc.heap && room.disposed == s.svc.heap[id].disposed
    requires room.disposed ==> room.saveTimer.None? || room.saveTimer == s.svc.heap[id].saveTimer
    ensures
      var svc := With(s.svc, id, room);
      && OneRoom(svc) && OneLoad(svc, s.loads) && RealResults(s.kind, svc.heap, s.loads)
      && svc.heap.Keys == s.svc.heap.Keys
  {
    WithKeepsOneRoom(s.svc, id, room);
  }

  lemma LeaveKeepsSharing(s: State, k: SocketId, leave: LeaveId, write: WriteId)
    requires Sharing(s) && (s.svc.live.Some? ==> s.svc.live.value in s.hist.tracks)
    ensures Sharing(AfterLeave(s, k, leave, write))
  {
    hide OneRoom, OneLoad, RealResults, With, Owned;
    var at := Current(s.svc, k);
    if at.Some? {
      WithKeepsSharing(s, at.value, LastOut(Drop(s.svc.heap[at.value], k)));
    }
  }

  lemma EditKeepsSharing(s: State, step: EditStep)
    requires Sharing(s) && EditEnabled(s, step)
    ensures Sharing(EditApply(s, step))
  {
    hide OneRoom, OneLoad, RealResults, With, TooLarge, Stamp, Merge, SaveDelay, Owned;
    match step
    case Edit(k, update, size) =>
      var at := Admits(s.svc, s.gate, k, update);
      if at.Some? {
        EditedRoomIsLive(s.svc, k);
        WithKeepsSharing(s, at.value, Accept(s.svc.heap[at.value], update, size, s.now));
      }
    case Presence(k, _, change) =>
      var at := Current(s.svc, k);
      if at.Some? {
        WithKeepsSharing(s, at.value, ChangePresence(s.svc.heap[at.value], k, change));
      }
    case PresenceTimeout(id, ids) =>
      WithKeepsSharing(s, id, ExpirePresence(s.svc.heap[id], ids));
  }

  lemma EditedRoomIsLive(svc: Service, k: SocketId)
    requires OneRoom(svc)
    ensures Current(svc, k).Some? ==> Current(svc, k).value in svc.heap && !svc.heap[Current(svc, k).value].disposed
  {
  }

  lemma SaveKeepsSharing(s: State, step: SaveStep)
    requires Sharing(s) && SaveEnabled(s, step)
    ensures Sharing(SaveApply(s, step))
  {
    hide OneRoom, OneLoad, RealResults, With;
    match step
    case SaveTimerFires(id, write) => WithKeepsSharing(s, id, SaveStart(s.svc.heap[id]));
    case Commit(_) =>
    case SaveOk(i) =>
      var w := s.db.writes[i];
      WithKeepsSharing(s, w.room, Saved(s.svc.heap[w.room], w.doc.size));
    case SaveFail(i) =>
      var w := s.db.writes[i];
      WithKeepsSharing(s, w.room, SaveFailed(s.svc.heap[w.room], s.now));
  }

  lemma LifeKeepsSharing(s: State, step: LifeStep)
    requires Sharing(s) && LifeEnabled(s, step) && Keyed(s, Life(step))
    ensures Sharing(LifeApply(s, step))
  {
    hide OneRoom, Unloadable;
    match step
    case UnloadTimerFires(timer) => UnloadKeepsOneRoom(s.svc, s.timers[timer].room);
    case EvictFinish => EvictKeepsOneRoom(s.svc);
    case _ =>
  }

  lemma StepKeepsSharing(s: State, step: Step)
    requires Sharing(s) && Enabled(s, step) && Keyed(s, step)
    ensures Sharing(Apply(s, step))
  {
    hide Sharing, SessionEnabled, SessionApply, LoadEnabled, LoadApply, EditEnabled, EditApply, SaveEnabled, SaveApply,
         LifeEnabled, LifeApply, Keyed;
    match step
    case Session(x) => SessionKeepsSharing(s, x);
    case Loading(x) => LoadKeepsSharing(s, x);
    case Change(x) => EditKeepsSharing(s, x);
    case Saving(x) => SaveKeepsSharing(s, x);
    case Life(x) => LifeKeepsSharing(s, x);
  }

  // ---- Whole runs ----

  lemma {:induction false} RunKeepsSharing(s: State, steps: seq<Step>, t: State)
    requires Sharing(s) && Run(s, steps, t, Keyed)
    ensures Sharing(t)
    decreases |steps|
  {
    hide Sharing, Enabled, Apply, Keyed;
    if steps != [] {
      StepKeepsSharing(s, steps[0]);
      RunKeepsSharing(Apply(s, steps[0]), steps[1..], t);
    }
  }

  predicate Running(s: State, l: LoadId) {
    l in s.loads && !s.loads[l].Done?
  }

  /** From a cold start, never two loads at once, never two undisposed rooms, and never a load beside a live room. */
  lemma {:induction false} AtMostOneLoadAndOneRoom(kind: Kind, steps: seq<Step>, t: State)
    requires Run(Start(kind), steps, t, Keyed)
    ensures forall l, m | Running(t, l) && Running(t, m) :: l == m
    ensures forall id, other | id in t.svc.heap && other in t.svc.heap ::
              !t.svc.heap[id].disposed && !t.svc.heap[other].disposed ==> id == other
    ensures forall l | Running(t, l) :: t.svc.live.None?
  {
    RunKeepsSharing(Start(kind), steps, t);
  }

  /** Once a load has a result, it keeps it. */
  lemma {:induction false} ResultsAreFinal(s: State, steps: seq<Step>, t: State, l: LoadId, allowed: Assumption)
    requires Run(s, steps, t, allowed) && l in s.loads && s.loads[l].Done?
    ensures l in t.loads && t.loads[l] == s.loads[l]
    decreases |steps|
  {
    if steps != [] {
      StepKeepsResult(s, steps[0], l);
      ResultsAreFinal(Apply(s, steps[0]), steps[1..], t, l, allowed);
    }
  }

  lemma StepKeepsResult(s: State, step: Step, l: LoadId)
    requires Enabled(s, step) && l in s.loads && s.loads[l].Done?
    ensures l in Apply(s, step).loads && Apply(s, step).loads[l] == s.loads[l]
  {
    hide InFlight, Resolved, Current, Opens, Joins, Request, Drop, LastOut, Join, Encoded, Issue, Cancel, With, Enter,
         Install, NewRoom, NewTrack, Restores, Admits, Classified, Accept, ChangePresence, ExpirePresence, Relay,
         Arrive, Stamp, TooLarge, Without, Unload, Evict;
  }

  /**
   Two sockets waiting on one load, resumed at different moments of a run, are
   handed the same room, or both nothing, or both the failure.
  */
  lemma {:induction false} WaitersAgree(s: State, steps: seq<Step>, t: State, l: LoadId, allowed: Assumption)
    requires Run(s, steps, t, allowed)
    requires Resolved(s.svc, s.loads, OnLoad(l)).Some? && Resolved(t.svc, t.loads, OnLoad(l)).Some?
    ensures Resolved(s.svc, s.loads, OnLoad(l)) == Resolved(t.svc, t.loads, OnLoad(l))
  {
    ResultsAreFinal(s, steps, t, l, allowed);
  }
}
