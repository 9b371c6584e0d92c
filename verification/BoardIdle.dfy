/**
 Unload timers. Each is due a full idle period after the departure that set
 it. As long as departures do not overlap, so that none overwrites the pending
 timer of another or outlives its room, every timer is the one its room holds:
 whoever comes back cancels it, and no timer can close a room that is not its
 own.
*/
module BoardIdle {
  import opened Prelude
  import opened BoardRoom
  import opened BoardMachine
  import opened BoardRoomEvents
  import opened BoardSharing

  // ---- Every timer runs for the whole idle period ----

  /** What was not pending before is due an idle period from then at the earliest. */
  ghost predicate SetSince(before: map<TimerId, UnloadTimer>, since: nat, timers: map<TimerId, UnloadTimer>) {
    forall timer | timer in timers ::
      (timer in before && before[timer] == timers[timer]) || since + 60000 <= timers[timer].due
  }

  predicate Pending(timers: map<TimerId, UnloadTimer>, timer: TimerId, entry: UnloadTimer) {
    timer in timers && timers[timer] == entry
  }

  /** A departure that ends sets the timer. */
  predicate Sets(s: State, step: Step, timer: TimerId, entry: UnloadTimer) {
    && step.Session? && step.session.LeaveFinish? && step.session.newTimer == timer && step.session.leave in s.leaves
    && entry == UnloadTimer(s.leaves[step.session.leave].room, s.now + 60000)
  }

  /** Entering or closing a room cancels the timer it holds. */
  predicate Cancels(event: RoomEvent, room: Room, timer: TimerId) {
    (event.Entered? || event.Shut?) && room.unloadTimer == Some(timer)
  }

  lemma SessionTimers(s: State, step: SessionStep, timer: TimerId)
    requires SessionEnabled(s, step) && timer in SessionApply(s, step).timers
    ensures
      var entry := SessionApply(s, step).timers[timer];
      || Sets(s, Session(step), timer, entry)
      || (Pending(s.timers, timer, entry)
          && (entry.room in s.svc.heap ==>
                !Cancels(SessionEvent(s, step, entry.room), s.svc.heap[entry.room], timer)))
  {
    hide InFlight, Joins, Issue, Encoded, Opens, Request, StartLoad, Drop, LastOut, Enter, With;
  }

  lemma LifeTimers(s: State, step: LifeStep, timer: TimerId)
    requires LifeEnabled(s, step) && timer in LifeApply(s, step).timers
    ensures
      var entry := LifeApply(s, step).timers[timer];
      && Pending(s.timers, timer, entry)
      && (entry.room in s.svc.heap ==> !Cancels(LifeEvent(s, step, entry.room), s.svc.heap[entry.room], timer))
  {
    hide Unloadable, Unload, Evict;
  }

  /** A pending timer was set by this step, or was pending before and its room did not cancel it. */
  lemma StepTimers(s: State, step: Step, timer: TimerId)
    requires Enabled(s, step) && timer in Apply(s, step).timers
    ensures
      var entry := Apply(s, step).timers[timer];
      || Sets(s, step, timer, entry)
      || (Pending(s.timers, timer, entry)
          && (entry.room in s.svc.heap ==>
                !Cancels(EventOf(s, step, entry.room), s.svc.heap[entry.room], timer)))
  {
    hide SessionEnabled, SessionApply, SessionEvent, LifeEnabled, LifeApply, LifeEvent, Sets;
    match step
    case Session(x) => SessionTimers(s, x, timer);
    case Loading(x) => hide Restores, NewRoom, NewTrack, Install;
    case Change(x) => hide Accept, Stamp, Relay, Arrive, TooLarge, ChangePresence, ExpirePresence, Classified;
    case Saving(x) =>
      hide InFlight, Issue, Encoded, Without, Next, SaveStart;
      if x.Commit? { IndexOfNext(s.db.writes, x.index); }
    case Life(x) => LifeTimers(s, x, timer);
  }

  lemma {:induction false} TimersAreSet(s: State, steps: seq<Step>, t: State, allowed: Assumption)
    requires Run(s, steps, t, allowed)
    ensures SetSince(s.timers, s.now, t.timers) && s.now <= t.now
    decreases |steps|
  {
    hide Enabled, Apply, Cancels;
    if steps != [] {
      var now := Apply(s, steps[0]);
      forall timer | timer in now.timers ensures Sets(s, steps[0], timer, now.timers[timer])
                                              || Pending(s.timers, timer, now.timers[timer])
      {
        StepTimers(s, steps[0], timer);
      }
      TimeGoesOn(s, steps[0]);
      TimersAreSet(Apply(s, steps[0]), steps[1..], t, allowed);
    }
  }

  // ---- Departures that do not overlap ----

  /**
   A departure ends while its room is still in use, and the timer of no other
   departure from that room is pending.
  */
  predicate Apart(s: State, step: Step) {
    step.Session? && step.session.LeaveFinish? && step.session.leave in s.leaves ==>
      DepartsAlone(s, s.leaves[step.session.leave].room)
  }

  predicate DepartsAlone(s: State, id: RoomId) {
    id in s.svc.heap && !s.svc.heap[id].disposed
    && (s.svc.heap[id].unloadTimer.Some? ==> s.svc.heap[id].unloadTimer.value !in s.timers)
  }

  predicate HeldBy(rooms: map<RoomId, Room>, timer: TimerId, id: RoomId) {
    id in rooms && !rooms[id].disposed && rooms[id].unloadTimer == Some(timer)
  }

  /** Every pending timer is the one stored in a room still in use. */
  ghost predicate Held(s: State) {
    Tracked(s) && forall timer | timer in s.timers :: HeldBy(s.svc.heap, timer, s.timers[timer].room)
  }

  lemma TimerStaysHeld(room: Room, event: RoomEvent, now: nat, timer: TimerId)
    requires !room.disposed && room.unloadTimer == Some(timer) && !Cancels(event, room, timer)
    requires event.Armed? ==> event.timer == timer
    ensures !RoomAfter(room, event, now).disposed && RoomAfter(room, event, now).unloadTimer == Some(timer)
  {
  }

  lemma StepKeepsHeld(s: State, step: Step)
    requires Held(s) && Enabled(s, step) && Apart(s, step)
    ensures Held(Apply(s, step))
  {
    var t := Apply(s, step);
    StepMakes(s, step, 0);
    forall timer | timer in t.timers ensures HeldBy(t.svc.heap, timer, t.timers[timer].room) {
      TimerIsHeld(s, step, timer);
    }
    hide Enabled, Apply;
  }

  lemma TimerIsHeld(s: State, step: Step, timer: TimerId)
    requires Held(s) && Enabled(s, step) && Apart(s, step) && timer in Apply(s, step).timers
    ensures HeldBy(Apply(s, step).svc.heap, timer, Apply(s, step).timers[timer].room)
  {
    var id := Apply(s, step).timers[timer].room;
    StepTimers(s, step, timer);
    ArmedByDepartures(s, step, id);
    hide SessionApply, LoadApply, EditApply, SaveApply, LifeApply, Apply, EventOf, RoomAfter, TrackAfter;
    assert id in s.svc.heap;
    StepFollows(s, step, id);
    if Sets(s, step, timer, Apply(s, step).timers[timer]) {
      ArmingHolds(s.svc.heap[id], s.now, timer);
    } else {
      TimerStaysHeld(s.svc.heap[id], EventOf(s, step, id), s.now, timer);
    }
  }

  lemma ArmingHolds(room: Room, now: nat, timer: TimerId)
    ensures RoomAfter(room, Armed(timer), now) == room.(unloadTimer := Some(timer))
  {
  }

  lemma ArmedByDepartures(s: State, step: Step, id: RoomId)
    requires Enabled(s, step)
    ensures
      var departs := step.Session? && step.session.LeaveFinish? && s.leaves[step.session.leave].room == id;
      departs ==> EventOf(s, step, id) == Armed(step.session.newTimer)
    ensures EventOf(s, step, id).Armed? ==>
              step.Session? && step.session.LeaveFinish? && s.leaves[step.session.leave].room == id
  {
    hide InFlight, Unloadable, Current, Admits, Resolved, Next;
    if step.Saving? && step.save.Commit? { IndexOfNext(s.db.writes, step.save.index); }
  }

  /** A pending timer then belongs to the live room, so its firing is keyed. */
  lemma HeldIsKeyed(s: State, step: Step)
    requires Held(s) && Sharing(s) && Enabled(s, step)
    ensures Keyed(s, step)
  {
    hide OneLoad, RealResults, RealPhases, RealTimers, RealWrites;
  }

  lemma {:induction false} RunKeepsHeld(s: State, steps: seq<Step>, t: State)
    requires Held(s) && Sharing(s) && Run(s, steps, t, Apart)
    ensures Held(t) && Sharing(t) && Run(s, steps, t, Keyed)
    decreases |steps|
  {
    hide Held, Sharing, Enabled, Apply, Apart, Keyed;
    if steps != [] {
      HeldIsKeyed(s, steps[0]);
      StepKeepsHeld(s, steps[0]);
      StepKeepsSharing(s, steps[0]);
      RunKeepsHeld(Apply(s, steps[0]), steps[1..], t);
    }
  }

  lemma NothingPending(kind: Kind)
    ensures Held(Start(kind)) && Sharing(Start(kind))
  {
  }

  /** Where departures do not overlap, every timer is keyed. */
  lemma {:induction false} DeparturesApartAreKeyed(kind: Kind, steps: seq<Step>, t: State)
    requires Run(Start(kind), steps, t, Apart)
    ensures Run(Start(kind), steps, t, Keyed)
  {
    hide Run, Held, Sharing;
    NothingPending(kind);
    RunKeepsHeld(Start(kind), steps, t);
  }

  /**
   After such a past, whoever comes into a room cancels its timer: in any run
   that follows, none of that room fires before a full idle period is over.
  */
  lemma {:induction false} RejoiningRestartsTheWait(kind: Kind, past: seq<Step>, s: State, k: SocketId, id: RoomId,
                                                    steps: seq<Step>, t: State, allowed: Assumption, timer: TimerId)
    requires Run(Start(kind), past, s, Apart) && SessionEnabled(s, JoinFinish(k))
    requires Resolved(s.svc, s.loads, s.gate.phases[k].on) == Some(Loaded(id))
    requires Run(SessionApply(s, JoinFinish(k)), steps, t, allowed)
    requires LifeEnabled(t, UnloadTimerFires(timer)) && t.timers[timer].room == id
    ensures s.now + 60000 <= t.now
  {
    hide Run, Sharing, Apart;
    NothingPending(kind);
    RunKeepsHeld(Start(kind), past, s);
    TimersAreSet(SessionApply(s, JoinFinish(k)), steps, t, allowed);
    JoiningCancels(s, k, id);
  }

  lemma JoiningCancels(s: State, k: SocketId, id: RoomId)
    requires Held(s) && SessionEnabled(s, JoinFinish(k))
    requires Resolved(s.svc, s.loads, s.gate.phases[k].on) == Some(Loaded(id))
    ensures
      var t := SessionApply(s, JoinFinish(k));
      t.now == s.now && forall timer | timer in t.timers :: t.timers[timer].room != id
  {
  }

  /** And a departure that waited long enough closes its room: nobody in it, nothing unsaved, its own timer due. */
  lemma {:induction false} IdleRoomIsClosed(kind: Kind, past: seq<Step>, s: State, timer: TimerId)
    requires Run(Start(kind), past, s, Apart) && LifeEnabled(s, UnloadTimerFires(timer))
    ensures
      var id := s.timers[timer].room;
      var room := s.svc.heap[id];
      var t := LifeApply(s, UnloadTimerFires(timer));
      && s.svc.live == Some(id)
      && (if room.sockets == {} && room.dirtySince.None?
          then t.svc.live.None? && t.svc.heap[id].disposed && t.svc.heap[id].saveTimer.None?
          else t.svc == s.svc)
      && forall other | other in t.timers :: t.timers[other].room != id
  {
    hide Run, Apart, OneLoad, RealResults, RealPhases, RealTimers, RealWrites;
    NothingPending(kind);
    RunKeepsHeld(Start(kind), past, s);
  }

  // ---- A departure waits for its own save ----

  predicate Finishes(step: Step, leave: LeaveId) {
    step.Session? && step.session.LeaveFinish? && step.session.leave == leave
  }

  lemma DepartureStays(s: State, step: Step, leave: LeaveId)
    requires Enabled(s, step) && leave in s.leaves && !Finishes(step, leave)
    ensures leave in Apply(s, step).leaves && Apply(s, step).leaves[leave] == s.leaves[leave]
  {
    hide InFlight, Joins, Drop, LastOut, Join, Accept, Stamp, Relay, Arrive, TooLarge, ChangePresence, ExpirePresence,
         Classified, Issue, Encoded, Without, NewRoom, NewTrack, Unload, Evict, Restores, Install, Request, Enter, With,
         SaveStart, Cancel;
    match step
    case Saving(Commit(i)) => IndexOfNext(s.db.writes, i);
    case _ =>
  }

  lemma {:induction false} DeparturesStay(s: State, steps: seq<Step>, t: State, leave: LeaveId)
    requires leave in s.leaves && Run(s, steps, t, (u, step) => !Finishes(step, leave))
    ensures leave in t.leaves && t.leaves[leave] == s.leaves[leave]
    decreases |steps|
  {
    hide Enabled, Apply;
    if steps != [] {
      DepartureStays(s, steps[0], leave);
      DeparturesStay(Apply(s, steps[0]), steps[1..], t, leave);
    }
  }

  /**
   The last one out of a room with unsaved changes starts a write of the whole
   document, and in any run its departure, which arms the unload timer, ends
   only when that write is no longer outstanding.
  */
  lemma {:induction false} LastOutWaitsForItsSave(s: State, k: SocketId, leave: LeaveId, w: WriteId, steps: seq<Step>,
                                                  t: State, timer: TimerId)
    requires SessionEnabled(s, LeaveStart(k, leave, w)) && s.svc.live.Some? && s.svc.live.value in s.svc.heap
    requires s.svc.heap[s.svc.live.value].sockets == {k} && s.svc.heap[s.svc.live.value].dirtySince.Some?
    requires Run(SessionApply(s, LeaveStart(k, leave, w)), steps, t, (u, step) => !Finishes(step, leave))
    requires SessionEnabled(t, LeaveFinish(leave, timer))
    ensures
      var after := SessionApply(s, LeaveStart(k, leave, w));
      && after.db.writes == s.db.writes + [Write(w, s.svc.live.value, s.svc.heap[s.svc.live.value].doc, false, 0)]
      && after.svc.heap[s.svc.live.value].dirtySince.None?
    ensures forall i | 0 <= i < |t.db.writes| :: t.db.writes[i].id != w
  {
    hide Run;
    assert s.svc.heap[s.svc.live.value].sockets - {k} == {};
    DeparturesStay(SessionApply(s, LeaveStart(k, leave, w)), steps, t, leave);
  }
}
