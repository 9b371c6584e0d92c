/**
 When one document can get two rooms. `unload` deletes by key, so a timer that
 outlived its room can take a newer room out of the map. The firing itself
 leaves no second room; what it decides is whether one can follow, and whether
 an eviction can miss a room.
*/
module BoardTwoRooms {
  import opened Prelude
  import opened BoardRoom
  import opened BoardMachine
  import opened BoardSharing
  import opened BoardLoss
  import opened BoardReopening

  predicate InUse(s: State, id: RoomId) {
    id in s.svc.heap && !s.svc.heap[id].disposed
  }

  predicate TwoRooms(s: State) {
    exists id, other | id in s.svc.heap && other in s.svc.heap :: id != other && InUse(s, id) && InUse(s, other)
  }

  /** Some later run, with keyed timers from here on, has two rooms in use at once. */
  ghost predicate CanSplit(s: State) {
    exists steps: seq<Step>, t: State :: Run(s, steps, t, Keyed) && TwoRooms(t)
  }

  lemma SharingHasOneRoom(s: State)
    requires Sharing(s)
    ensures !TwoRooms(s)
  {
  }

  lemma SharingNeverSplits(s: State)
    requires Sharing(s)
    ensures !CanSplit(s)
  {
    hide Run, Sharing, TwoRooms;
    forall steps: seq<Step>, t: State | Run(s, steps, t, Keyed) ensures !TwoRooms(t) {
      RunKeepsSharing(s, steps, t);
      SharingHasOneRoom(t);
    }
  }

  /** A room in use that the map does not hold gets a second one beside it as soon as somebody comes. */
  lemma StrayRoomCanSplit(s: State, stray: RoomId)
    requires Openable(s) && InUse(s, stray)
    ensures CanSplit(s)
  {
    hide Reaches, Run, Openable, NewRoom;
    var t, k, room := SomebodyOpens(s);
    NewRoomIsInUse(NextDoc(s.db), s.db.store.None?, s.now, k);
    assert InUse(t, stray) && InUse(t, room);
    assert TwoRooms(t);
    OrdinaryReaches(s, t);
    ReachedCanSplit(s, t);
  }

  lemma ReachedCanSplit(s: State, t: State)
    requires Reaches(s, t, Keyed) && TwoRooms(t)
    ensures CanSplit(s)
  {
  }

  lemma NewRoomIsInUse(doc: Doc, seeded: bool, now: nat, k: SocketId)
    ensures !Join(NewRoom(doc, seeded, now), k).disposed
  {
  }

  /** A project nobody started can be started first. */
  lemma StrayRoomCanAlwaysSplit(s: State, stray: RoomId)
    requires s.svc.live.None? && (s.svc.loading.Some? ==> s.svc.loading.value in s.loads)
    requires forall l | l in s.loads :: s.loads[l].Done?
    requires !s.db.deleted && InUse(s, stray)
    ensures CanSplit(s)
  {
    hide Run, Reaches, CanSplit;
    if s.kind.Code? || s.db.store.Some? {
      StrayRoomCanSplit(s, stray);
    } else {
      ReachesItself(s, Keyed);
      var t := Then(s, s, Life(StartProject(Doc({}, 0))), Keyed);
      StrayRoomCanSplit(t, stray);
      SplitsLater(s, t);
    }
  }

  lemma SplitsLater(s: State, t: State)
    requires Reaches(s, t, Keyed) && CanSplit(t)
    ensures CanSplit(s)
  {
    hide Run;
    var steps: seq<Step>, u: State :| Run(t, steps, u, Keyed) && TwoRooms(u);
    assert Reaches(t, u, Keyed);
    Onwards(s, t, u, Keyed);
  }

  /** What an unload timer that is not keyed leaves behind. */
  lemma NotKeyedLeavesAStray(s: State, timer: TimerId) returns (stray: RoomId)
    requires Sharing(s) && LifeEnabled(s, UnloadTimerFires(timer)) && !KeyedUnload(s, timer)
    ensures
      var after := AfterUnload(s, timer);
      && InUse(after, stray) && after.svc.live.None? && after.loads == s.loads && after.db == s.db
      && (after.svc.loading.Some? ==> after.svc.loading.value in after.loads)
      && forall l | l in after.loads :: after.loads[l].Done?
  {
    hide RealResults, RealPhases, RealTimers, RealWrites, Cancel;
    stray := s.svc.live.value;
  }

  /**
   The exact condition. After any keyed past, the firing of an unload timer can
   be followed by two rooms of the document in use if and only if it is not
   keyed: it closes a room while the map holds another.
  */
  lemma {:induction false} FiringCanSplitExactly(kind: Kind, past: seq<Step>, s: State, timer: TimerId)
    requires Run(Start(kind), past, s, Keyed) && LifeEnabled(s, UnloadTimerFires(timer)) && s.eviction.NotEvicted?
    ensures CanSplit(AfterUnload(s, timer)) <==> !KeyedUnload(s, timer)
  {
    hide Run, Sharing, Recorded, CanSplit, KeyedUnload, AfterUnload;
    StartIsRecorded(kind);
    RunKeepsSharing(Start(kind), past, s);
    RunIsRecorded(Start(kind), past, s, Keyed);
    if KeyedUnload(s, timer) {
      KeyedFiringKeepsSharing(s, timer);
      SharingNeverSplits(AfterUnload(s, timer));
    } else {
      var stray := NotKeyedLeavesAStray(s, timer);
      RecordedIsUndeleted(s);
      StrayRoomCanAlwaysSplit(AfterUnload(s, timer), stray);
    }
  }

  lemma KeyedFiringKeepsSharing(s: State, timer: TimerId)
    requires Sharing(s) && LifeEnabled(s, UnloadTimerFires(timer)) && KeyedUnload(s, timer)
    ensures Sharing(AfterUnload(s, timer))
  {
    hide Sharing;
    StepKeepsSharing(s, Life(UnloadTimerFires(timer)));
  }

  lemma RecordedIsUndeleted(s: State)
    requires Recorded(s) && s.eviction.NotEvicted?
    ensures !s.db.deleted
  {
  }

  // ---- Eviction ----

  /** `evict` ends, and a room of the document is still in use. */
  predicate EvictionMisses(s: State) {
    LifeEnabled(s, EvictFinish) && SomeInUse(LifeApply(s, EvictFinish))
  }

  predicate SomeInUse(s: State) {
    exists id | id in s.svc.heap :: InUse(s, id)
  }

  /** Some later run, with keyed timers from here on, comes to such an end. */
  ghost predicate CanOutliveEviction(s: State) {
    exists t: State :: Reaches(s, t, Keyed) && EvictionMisses(t)
  }

  lemma SharingIsEvicted(s: State)
    requires Sharing(s)
    ensures !EvictionMisses(s)
  {
    hide OneLoad, RealResults, RealPhases, RealTimers, RealWrites;
  }

  lemma SharingCannotOutlive(s: State)
    requires Sharing(s)
    ensures !CanOutliveEviction(s)
  {
    hide Run, Sharing, EvictionMisses;
    forall t: State | Reaches(s, t, Keyed) ensures !EvictionMisses(t) {
      var steps :| Run(s, steps, t, Keyed);
      RunKeepsSharing(s, steps, t);
      SharingIsEvicted(t);
    }
  }

  /** `evict` looks the room up by key, so a room the map does not hold is left alone. */
  lemma StrayRoomCanOutlive(s: State, stray: RoomId)
    requires s.svc.live.None? && (s.svc.loading.Some? ==> s.svc.loading.value in s.loads)
    requires forall l | l in s.loads :: s.loads[l].Done?
    requires !s.eviction.Awaiting? && InUse(s, stray)
    ensures CanOutliveEviction(s)
  {
    hide Reaches;
    ReachesItself(s, Keyed);
    var t := s;
    if s.svc.loading.Some? {
      t := Then(s, s, Loading(LoadSettle(s.svc.loading.value)), Keyed);
    }
    t := Then(s, t, Life(EvictStart), Keyed);
    assert InUse(LifeApply(t, EvictFinish), stray);
  }

  /**
   The same condition for eviction: after any keyed past, the firing of an
   unload timer can be followed by an eviction that leaves a room in use if and
   only if it is not keyed.
  */
  lemma {:induction false} FiringCanOutliveEvictionExactly(kind: Kind, past: seq<Step>, s: State, timer: TimerId)
    requires Run(Start(kind), past, s, Keyed) && LifeEnabled(s, UnloadTimerFires(timer)) && !s.eviction.Awaiting?
    ensures CanOutliveEviction(AfterUnload(s, timer)) <==> !KeyedUnload(s, timer)
  {
    hide Run, Sharing, CanOutliveEviction, KeyedUnload;
    StartIsRecorded(kind);
    RunKeepsSharing(Start(kind), past, s);
    if KeyedUnload(s, timer) {
      hide AfterUnload;
      KeyedFiringKeepsSharing(s, timer);
      SharingCannotOutlive(AfterUnload(s, timer));
    } else {
      var stray := NotKeyedLeavesAStray(s, timer);
      hide Cancel;
      StrayRoomCanOutlive(AfterUnload(s, timer), stray);
    }
  }
}
