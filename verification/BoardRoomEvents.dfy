/**
 What a step of the machine does to one room. Whatever the step, at most one
 thing happens to a room; invariants of single rooms are proved over these.
*/
module BoardRoomEvents {
  import opened Prelude
  import opened BoardRoom
  import opened BoardMachine

  datatype RoomEvent =
    | Untouched
    | Entered(socket: SocketId)
    | Left(socket: SocketId)
    | Armed(timer: TimerId)
    | Edited(update: Update, size: nat)
    | Shown(socket: SocketId, change: PresenceChange)
    | Expired(ids: set<ClientId>)
    | SaveBegan
    | SaveEnded(size: nat, arrived: nat)
    | SaveBroke
    | Shut

  function SessionEvent(s: State, step: SessionStep, id: RoomId): RoomEvent
    requires SessionEnabled(s, step)
  {
    match step
    case JoinFinish(k) =>
      if Resolved(s.svc, s.loads, s.gate.phases[k].on) == Some(Loaded(id)) then Entered(k) else Untouched
    case LeaveStart(k, _, _) => if Current(s.svc, k) == Some(id) then Left(k) else Untouched
    case LeaveFinish(leave, timer) => if s.leaves[leave].room == id then Armed(timer) else Untouched
    case _ => Untouched
  }

  function ChangeEvent(s: State, step: EditStep, id: RoomId): RoomEvent {
    match step
    case Edit(k, update, size) =>
      if Admits(s.svc, s.gate, k, update) == Some(id) then Edited(update, size) else Untouched
    case Presence(k, bytes, change) =>
      if k in s.gate.registered && Current(s.svc, k) == Some(id) && bytes <= MAX_UPDATE_BYTES then Shown(k, change)
      else Untouched
    case PresenceTimeout(room, ids) => if room == id then Expired(ids) else Untouched
  }

  function SavingEvent(s: State, step: SaveStep, id: RoomId): RoomEvent
    requires SaveEnabled(s, step)
  {
    match step
    case SaveTimerFires(room, _) => if room == id then SaveBegan else Untouched
    case Commit(_) => Untouched
    case SaveOk(i) =>
      var w := s.db.writes[i];
      if w.room == id then SaveEnded(w.doc.size, w.arrived) else Untouched
    case SaveFail(i) => if s.db.writes[i].room == id then SaveBroke else Untouched
  }

  function LifeEvent(s: State, step: LifeStep, id: RoomId): RoomEvent
    requires LifeEnabled(s, step)
  {
    match step
    case UnloadTimerFires(timer) =>
      if s.timers[timer].room == id && Unloadable(s.svc.heap[id]) then Shut else Untouched
    case EvictFinish => if s.svc.live == Some(id) then Shut else Untouched
    case _ => Untouched
  }

  function EventOf(s: State, step: Step, id: RoomId): RoomEvent
    requires Enabled(s, step)
  {
    match step
    case Session(x) => SessionEvent(s, x, id)
    case Loading(_) => Untouched
    case Change(x) => ChangeEvent(s, x, id)
    case Saving(x) => SavingEvent(s, x, id)
    case Life(x) => LifeEvent(s, x, id)
  }

  function RoomAfter(room: Room, event: RoomEvent, now: nat): Room {
    match event
    case Untouched => room
    case Entered(k) => Join(room, k)
    case Left(k) => LastOut(Drop(room, k))
    case Armed(timer) => room.(unloadTimer := Some(timer))
    case Edited(update, size) => Accept(room, update, size, now)
    case Shown(k, change) => ChangePresence(room, k, change)
    case Expired(ids) => ExpirePresence(room, ids)
    case SaveBegan => SaveStart(room)
    case SaveEnded(size, _) => Saved(room, size)
    case SaveBroke => BoardRoom.SaveFailed(room, now)
    case Shut => Dispose(room)
  }

  function TrackSaved(track: Track, room: Room): Track {
    if room.dirtySince.Some? then track.(unsaved := map[]) else track
  }

  function TrackAfter(room: Room, track: Track, event: RoomEvent, now: nat): Track {
    match event
    case Left(k) => if Drop(room, k).sockets == {} then TrackSaved(track, Drop(room, k)) else track
    case Edited(update, _) => Stamp(track, update.ops - room.doc.ops, now)
    case SaveBegan => TrackSaved(track, room)
    case SaveEnded(_, arrived) => track.(debt := arrived)
    case _ => track
  }

  ghost predicate Tracked(s: State) {
    s.hist.tracks.Keys == s.svc.heap.Keys
  }

  /** The room and its track have gone through the event. */
  predicate Follows(s: State, t: State, id: RoomId, event: RoomEvent)
    requires id in s.svc.heap && id in s.hist.tracks
  {
    && id in t.svc.heap && t.svc.heap[id] == RoomAfter(s.svc.heap[id], event, s.now)
    && id in t.hist.tracks && t.hist.tracks[id] == TrackAfter(s.svc.heap[id], s.hist.tracks[id], event, s.now)
  }

  lemma LeaveFollows(s: State, k: SocketId, leave: LeaveId, write: WriteId, id: RoomId)
    requires s.svc.live.Some? ==> s.svc.live.value in s.hist.tracks
    requires id in s.svc.heap && id in s.hist.tracks
    ensures Follows(s, AfterLeave(s, k, leave, write), id, if Current(s.svc, k) == Some(id) then Left(k) else Untouched)
  {
    hide Drop, SaveStart, Issue;
  }

  lemma SessionFollows(s: State, step: SessionStep, id: RoomId)
    requires SessionEnabled(s, step) && id in s.svc.heap && id in s.hist.tracks
    ensures Follows(s, SessionApply(s, step), id, SessionEvent(s, step, id))
  {
    hide InFlight, Joins, Join, Drop, LastOut, Current, AfterLeave;
    match step
    case LeaveStart(k, leave, write) => LeaveFollows(s, k, leave, write, id);
    case _ =>
  }

  lemma ChangeFollows(s: State, step: EditStep, id: RoomId)
    requires EditEnabled(s, step) && id in s.svc.heap && id in s.hist.tracks
    ensures Follows(s, EditApply(s, step), id, ChangeEvent(s, step, id))
  {
    hide Accept, Stamp, Relay, Arrive, TooLarge, ChangePresence, ExpirePresence, Classified;
  }

  lemma SavingFollows(s: State, step: SaveStep, id: RoomId)
    requires SaveEnabled(s, step) && id in s.svc.heap && id in s.hist.tracks
    ensures Follows(s, SaveApply(s, step), id, SavingEvent(s, step, id))
  {
    hide InFlight, Issue, Without, Next, SaveStart;
    match step
    case Commit(i) => IndexOfNext(s.db.writes, i);
    case _ =>
  }

  lemma LifeFollows(s: State, step: LifeStep, id: RoomId)
    requires LifeEnabled(s, step) && id in s.svc.heap && id in s.hist.tracks
    ensures Follows(s, LifeApply(s, step), id, LifeEvent(s, step, id))
  {
    hide Cancel, Unloadable;
  }

  /** Rooms that were there. */
  lemma StepFollows(s: State, step: Step, id: RoomId)
    requires Enabled(s, step) && id in s.svc.heap && id in s.hist.tracks
    ensures Follows(s, Apply(s, step), id, EventOf(s, step, id))
  {
    hide SessionEnabled, SessionApply, SessionEvent, EditEnabled, EditApply, ChangeEvent, SaveEnabled, SaveApply,
         SavingEvent, LifeEnabled, LifeApply, LifeEvent;
    match step
    case Session(x) => SessionFollows(s, x, id);
    case Loading(x) => hide Restores, NewRoom, NewTrack;
    case Change(x) => ChangeFollows(s, x, id);
    case Saving(x) => SavingFollows(s, x, id);
    case Life(x) => LifeFollows(s, x, id);
  }

  /** A room fresh from a load. */
  ghost predicate Fresh(s: State, t: State, id: RoomId) {
    id in t.svc.heap && id in t.hist.tracks &&
    exists doc, seeded ::
      t.svc.heap[id] == NewRoom(doc, seeded, s.now) && t.hist.tracks[id] == NewTrack(doc, seeded, s.now)
  }

  predicate SameRooms(s: State, t: State) {
    t.svc.heap.Keys == s.svc.heap.Keys && t.hist.tracks.Keys == s.hist.tracks.Keys
  }

  lemma SessionKeepsRooms(s: State, step: SessionStep)
    requires SessionEnabled(s, step) && Tracked(s)
    ensures SameRooms(s, SessionApply(s, step))
  {
    hide InFlight, Joins, Drop, SaveStart, Join, Issue;
  }

  lemma SavingKeepsRooms(s: State, step: SaveStep)
    requires SaveEnabled(s, step) && Tracked(s)
    ensures SameRooms(s, SaveApply(s, step))
  {
    hide InFlight, Issue, Without, SaveStart, Next;
    match step
    case Commit(i) => IndexOfNext(s.db.writes, i);
    case _ =>
  }

  lemma LoadMakes(s: State, step: LoadStep, id: RoomId)
    requires LoadEnabled(s, step) && Tracked(s)
    ensures Tracked(LoadApply(s, step))
    ensures id !in s.svc.heap && id in LoadApply(s, step).svc.heap ==> Fresh(s, LoadApply(s, step), id)
  {
    hide Restores, NewRoom, NewTrack;
  }

  /** And rooms that were not. */
  lemma StepMakes(s: State, step: Step, id: RoomId)
    requires Enabled(s, step) && Tracked(s)
    ensures Tracked(Apply(s, step))
    ensures id !in s.svc.heap && id in Apply(s, step).svc.heap ==> Fresh(s, Apply(s, step), id)
  {
    hide SessionEnabled, SessionApply, LoadEnabled, LoadApply, SaveEnabled, SaveApply, Fresh;
    match step
    case Session(x) => SessionKeepsRooms(s, x);
    case Loading(x) => LoadMakes(s, x, id);
    case Change(x) => hide Accept, Stamp, Relay, Arrive, TooLarge, ChangePresence, ExpirePresence, Classified;
    case Saving(x) => SavingKeepsRooms(s, x);
    case Life(x) => hide Cancel, Unloadable;
  }

  lemma {:induction false} RunKeepsTracks(s: State, steps: seq<Step>, t: State, allowed: Assumption)
    requires Tracked(s) && Run(s, steps, t, allowed)
    ensures Tracked(t)
    decreases |steps|
  {
    hide Tracked, Enabled, Apply;
    if steps != [] {
      StepMakes(s, steps[0], 0);
      RunKeepsTracks(Apply(s, steps[0]), steps[1..], t, allowed);
    }
  }

  /** Only time itself moves the clock. */
  lemma TimeStands(s: State, step: Step)
    requires Enabled(s, step) && !(step.Life? && step.life.Tick?)
    ensures Apply(s, step).now == s.now
  {
    hide InFlight, Joins, Drop, SaveStart, Join, Accept, Stamp, Relay, Arrive, TooLarge, ChangePresence, ExpirePresence,
         Classified, Issue, Encoded, Without, NewRoom, NewTrack, Cancel, Unload, Evict, Restores, Install, Request;
    match step
    case Saving(Commit(i)) => IndexOfNext(s.db.writes, i);
    case _ =>
  }

  lemma TimeGoesOn(s: State, step: Step)
    requires Enabled(s, step)
    ensures s.now <= Apply(s, step).now
  {
    if !(step.Life? && step.life.Tick?) {
      TimeStands(s, step);
    }
  }

  // ---- Invariants of single rooms ----

  /** Every room has the property, with its history. */
  ghost predicate Everywhere(s: State, p: (Room, Track) -> bool) {
    Tracked(s) && forall id | id in s.svc.heap :: p(s.svc.heap[id], s.hist.tracks[id])
  }

  /** New rooms have it, and no event of this sort takes it away. */
  ghost predicate Lasting(p: (Room, Track) -> bool, sort: (Room, RoomEvent) -> bool) {
    && (forall doc, seeded, now :: p(NewRoom(doc, seeded, now), NewTrack(doc, seeded, now)))
    && (forall room, track, event, now | p(room, track) && sort(room, event) ::
          p(RoomAfter(room, event, now), TrackAfter(room, track, event, now)))
  }

  predicate AnyEvent(room: Room, event: RoomEvent) {
    true
  }

  ghost predicate OnlySort(s: State, step: Step, sort: (Room, RoomEvent) -> bool)
    requires Enabled(s, step)
  {
    forall id | id in s.svc.heap :: sort(s.svc.heap[id], EventOf(s, step, id))
  }

  lemma StepKeepsEverywhere(s: State, step: Step, p: (Room, Track) -> bool, sort: (Room, RoomEvent) -> bool)
    requires Lasting(p, sort) && Everywhere(s, p) && Enabled(s, step) && OnlySort(s, step, sort)
    ensures Everywhere(Apply(s, step), p)
  {
    hide Enabled, Apply, EventOf, RoomAfter, TrackAfter, NewRoom, NewTrack;
    var t := Apply(s, step);
    assert Tracked(t) by { StepMakes(s, step, 0); }
    forall id | id in t.svc.heap ensures p(t.svc.heap[id], t.hist.tracks[id]) {
      if id in s.svc.heap {
        StepFollows(s, step, id);
        assert sort(s.svc.heap[id], EventOf(s, step, id)) && p(s.svc.heap[id], s.hist.tracks[id]);
      } else {
        StepMakes(s, step, id);
      }
    }
  }

  lemma {:induction false} RunKeepsEverywhere(s: State, steps: seq<Step>, t: State, allowed: Assumption,
                                              p: (Room, Track) -> bool, sort: (Room, RoomEvent) -> bool)
    requires Lasting(p, sort) && Everywhere(s, p) && Run(s, steps, t, allowed)
    requires forall u, step | Enabled(u, step) && allowed(u, step) :: OnlySort(u, step, sort)
    ensures Everywhere(t, p)
    decreases |steps|
  {
    hide Lasting, Everywhere, Enabled, Apply, OnlySort;
    if steps != [] {
      StepKeepsEverywhere(s, steps[0], p, sort);
      RunKeepsEverywhere(Apply(s, steps[0]), steps[1..], t, allowed, p, sort);
    }
  }
}
