/**
 No missed update: whoever has a document open has been sent all of it, as a
 snapshot, as relayed updates, or by making the edit. It rests on three
 choices in the code: a socket subscribes before its snapshot is taken,
 joining and encoding are one step, and an update goes to everyone but its
 origin.
*/
module BoardRelay {
  import opened Prelude
  import opened BoardRoom
  import opened BoardMachine
  import opened BoardSharing

  /** Past `client.join` and not yet past `client.leave`. */
  predicate Listening(phase: Phase) {
    phase.Subscribed? || phase.Opening? || phase.Open?
  }

  /** Everyone listening is subscribed, and everyone who has the document open has all of it. */
  ghost predicate Heard(gate: Gate, heap: map<RoomId, Room>, known: map<SocketId, set<Op>>) {
    && (forall k | k in gate.phases && Listening(gate.phases[k]) :: k in gate.subscribers && k in known)
    && (forall k | k in gate.phases && gate.phases[k].Open? ::
          && gate.phases[k].room in heap
          && k in heap[gate.phases[k].room].sockets
          && heap[gate.phases[k].room].doc.ops <= known[k])
  }

  ghost predicate AllHeard(s: State) {
    Heard(s.gate, s.svc.heap, s.hist.known)
  }

  // ---- One component at a time ----

  lemma WithKeepsHeard(gate: Gate, svc: Service, known: map<SocketId, set<Op>>, id: RoomId, room: Room)
    requires Heard(gate, svc.heap, known)
    requires id in svc.heap ==> room.doc.ops == svc.heap[id].doc.ops && svc.heap[id].sockets <= room.sockets
    ensures Heard(gate, With(svc, id, room).heap, known)
  {
  }

  lemma JoinKeepsHeard(gate: Gate, svc: Service, known: map<SocketId, set<Op>>, k: SocketId, id: RoomId)
    requires Heard(gate, svc.heap, known) && k in gate.phases && gate.phases[k].Opening? && id in svc.heap
    ensures Heard(Joins(gate, k, Loaded(id)), Enter(svc, id, k).heap, known[k := known[k] + svc.heap[id].doc.ops])
  {
  }

  lemma DropKeepsHeard(gate: Gate, svc: Service, known: map<SocketId, set<Op>>, k: SocketId, id: RoomId)
    requires Heard(gate, svc.heap, known) && id in svc.heap
    ensures Heard(gate.(phases := gate.phases[k := Closed]), With(svc, id, LastOut(Drop(svc.heap[id], k))).heap, known)
  {
  }

  lemma EditKeepsHeardHere(gate: Gate, svc: Service, known: map<SocketId, set<Op>>, k: SocketId, id: RoomId,
                           update: Update, size: nat, now: nat)
    requires Heard(gate, svc.heap, known) && id in svc.heap
    ensures
      var room := svc.heap[id];
      Heard(gate, With(svc, id, Accept(room, update, size, now)).heap,
            Relay(known, gate.subscribers, k, update.ops, update.ops - room.doc.ops))
  {
    var room := svc.heap[id];
    var after := Accept(room, update, size, now);
    assert after.doc.ops == room.doc.ops + update.ops && after.sockets == room.sockets;
  }

  // ---- One group of steps at a time ----

  lemma SessionKeepsHeard(s: State, step: SessionStep)
    requires AllHeard(s) && SessionEnabled(s, step)
    ensures AllHeard(SessionApply(s, step))
  {
    match step
    case JoinFinish(k) =>
      hide Heard;
      var result := Resolved(s.svc, s.loads, s.gate.phases[k].on).value;
      if result.Loaded? {
        JoinKeepsHeard(s.gate, s.svc, s.hist.known, k, result.room);
      } else {
        FailedJoinKeepsHeard(s.gate, s.svc.heap, s.hist.known, k, result);
      }
    case LeaveStart(k, leave, write) =>
      hide Heard, Drop, LastOut, InFlight;
      var at := Current(s.svc, k);
      if at.Some? {
        DropKeepsHeard(s.gate, s.svc, s.hist.known, k, at.value);
      } else {
        FailedJoinKeepsHeard(s.gate, s.svc.heap, s.hist.known, k, Failed);
      }
    case LeaveFinish(leave, timer) =>
      hide Heard, InFlight;
      var id := s.leaves[leave].room;
      WithKeepsHeard(s.gate, s.svc, s.hist.known, id, s.svc.heap[id].(unloadTimer := Some(timer)));
    case _ =>
  }

  lemma FailedJoinKeepsHeard(gate: Gate, heap: map<RoomId, Room>, known: map<SocketId, set<Op>>, k: SocketId,
                             result: LoadResult)
    requires Heard(gate, heap, known) && !result.Loaded?
    ensures Heard(Joins(gate, k, result), heap, known)
  {
  }

  lemma LoadKeepsHeard(s: State, step: LoadStep)
    requires AllHeard(s) && LoadEnabled(s, step)
    ensures AllHeard(LoadApply(s, step))
  {
    hide Heard, NewTrack, NewRoom;
    match step
    case LoadFinish(l, id, doc) =>
      WithKeepsHeard(s.gate, s.svc, s.hist.known, id, NewRoom(doc, s.loads[l].stored.None?, s.now));
    case _ =>
  }

  lemma EditKeepsHeard(s: State, step: EditStep)
    requires AllHeard(s) && EditEnabled(s, step)
    ensures AllHeard(EditApply(s, step))
  {
    hide Heard, Accept, Relay, Stamp, TooLarge, Owned;
    match step
    case Edit(k, update, size) =>
      var at := Admits(s.svc, s.gate, k, update);
      if at.Some? {
        EditKeepsHeardHere(s.gate, s.svc, s.hist.known, k, at.value, update, size, s.now);
      }
    case Presence(k, _, change) =>
      var at := Current(s.svc, k);
      if at.Some? {
        WithKeepsHeard(s.gate, s.svc, s.hist.known, at.value, ChangePresence(s.svc.heap[at.value], k, change));
      }
    case PresenceTimeout(id, ids) =>
      WithKeepsHeard(s.gate, s.svc, s.hist.known, id, ExpirePresence(s.svc.heap[id], ids));
  }

  lemma SaveKeepsHeard(s: State, step: SaveStep)
    requires AllHeard(s) && SaveEnabled(s, step)
    ensures AllHeard(SaveApply(s, step))
  {
    hide Heard, Issue, InFlight, Next;
    match step
    case SaveTimerFires(id, _) => WithKeepsHeard(s.gate, s.svc, s.hist.known, id, SaveStart(s.svc.heap[id]));
    case Commit(_) =>
    case SaveOk(i) =>
      var w := s.db.writes[i];
      WithKeepsHeard(s.gate, s.svc, s.hist.known, w.room, Saved(s.svc.heap[w.room], w.doc.size));
    case SaveFail(i) =>
      var w := s.db.writes[i];
      WithKeepsHeard(s.gate, s.svc, s.hist.known, w.room, SaveFailed(s.svc.heap[w.room], s.now));
  }

  lemma LifeKeepsHeard(s: State, step: LifeStep)
    requires AllHeard(s) && LifeEnabled(s, step)
    ensures AllHeard(LifeApply(s, step))
  {
    hide Heard, Unloadable;
    match step
    case UnloadTimerFires(timer) =>
      var id := s.timers[timer].room;
      WithKeepsHeard(s.gate, s.svc, s.hist.known, id, Dispose(s.svc.heap[id]));
    case EvictFinish =>
      if s.svc.live.Some? && s.svc.live.value in s.svc.heap {
        WithKeepsHeard(s.gate, s.svc, s.hist.known, s.svc.live.value, Dispose(s.svc.heap[s.svc.live.value]));
      }
    case _ =>
  }

  lemma StepKeepsHeard(s: State, step: Step)
    requires AllHeard(s) && Enabled(s, step)
    ensures AllHeard(Apply(s, step))
  {
    hide AllHeard, SessionEnabled, SessionApply, LoadEnabled, LoadApply, EditEnabled, EditApply, SaveEnabled, SaveApply,
         LifeEnabled, LifeApply;
    match step
    case Session(x) => SessionKeepsHeard(s, x);
    case Loading(x) => LoadKeepsHeard(s, x);
    case Change(x) => EditKeepsHeard(s, x);
    case Saving(x) => SaveKeepsHeard(s, x);
    case Life(x) => LifeKeepsHeard(s, x);
  }

  /**
   In every run at all, whoever finished opening the document and has not
   begun leaving it has been given everything in the room it joined.
  */
  lemma {:induction false} OpenSocketsHaveHeardAll(s: State, steps: seq<Step>, t: State, allowed: Assumption)
    requires AllHeard(s) && Run(s, steps, t, allowed)
    ensures AllHeard(t)
    decreases |steps|
  {
    hide AllHeard, Enabled, Apply;
    if steps != [] {
      StepKeepsHeard(s, steps[0]);
      OpenSocketsHaveHeardAll(Apply(s, steps[0]), steps[1..], t, allowed);
    }
  }

  // ---- The room they joined is the live one ----

  /** The room a suspended join is about to enter, once that is decided. */
  function Destination(loads: map<LoadId, Load>, waiting: Waiting): Option<RoomId> {
    match waiting
    case OnRoom(id) => Some(id)
    case OnLoad(l) =>
      if l in loads && loads[l].Done? && loads[l].result.Loaded? then Some(loads[l].result.room) else None
  }

  /** Whoever has the document open, or is about to, is headed for the live room. */
  ghost predicate Placed(gate: Gate, loads: map<LoadId, Load>, svc: Service) {
    && (forall k | k in gate.phases && gate.phases[k].Open? :: svc.live == Some(gate.phases[k].room))
    && (forall k | k in gate.phases && gate.phases[k].Opening? && Destination(loads, gate.phases[k].on).Some? ::
          svc.live == Destination(loads, gate.phases[k].on))
    && (svc.loading.Some? && Destination(loads, OnLoad(svc.loading.value)).Some? ==>
          svc.live == Destination(loads, OnLoad(svc.loading.value)))
  }

  /** Until the board is evicted. */
  ghost predicate InPlace(s: State) {
    s.eviction.Happened() || Placed(s.gate, s.loads, s.svc)
  }

  /**
   No unload timer fires between a load's result, or the answer that a room
   is live, and the joins resumed by it. In Node those are microtasks of one
   turn, and timers run between turns.
  */
  predicate Attended(s: State, step: Step) {
    Keyed(s, step) && (step.Life? && step.life.UnloadTimerFires? ==> NobodyArriving(s))
  }

  predicate NobodyArriving(s: State) {
    && (forall k | k in s.gate.phases && s.gate.phases[k].Opening? :: Destination(s.loads, s.gate.phases[k].on).None?)
    && (s.svc.loading.Some? ==> Destination(s.loads, OnLoad(s.svc.loading.value)).None?)
  }

  lemma RequestKeepsPlaced(gate: Gate, kind: Kind, loads: map<LoadId, Load>, svc: Service, k: SocketId, l: LoadId)
    requires Placed(gate, loads, svc) && l !in loads
    requires forall j | j in gate.phases && gate.phases[j].Opening? && gate.phases[j].on.OnLoad? ::
               gate.phases[j].on.load in loads
    ensures Placed(Opens(gate, kind, k, Request(svc, l).1), StartLoad(svc, loads, l), Request(svc, l).0)
  {
  }

  lemma FinishKeepsPlaced(gate: Gate, loads: map<LoadId, Load>, svc: Service, l: LoadId, id: RoomId, room: Room)
    requires Placed(gate, loads, svc) && OneLoad(svc, loads) && l in loads && loads[l].Got?
    ensures Placed(gate, loads[l := Done(Loaded(id))], Install(svc, id, room))
    ensures Placed(gate, loads[l := Done(Nothing)], svc)
  {
  }

  lemma UnloadKeepsPlaced(s: State, id: RoomId)
    requires AllHeard(s) && Placed(s.gate, s.loads, s.svc) && NobodyArriving(s) && id in s.svc.heap
    requires Unloadable(s.svc.heap[id]) ==> s.svc.live.None? || s.svc.live == Some(id)
    ensures Placed(s.gate, s.loads, Unload(s.svc, id))
  {
  }

  /** One socket's phase changes; rooms may change in place. */
  lemma PhaseKeepsPlaced(gate: Gate, gate': Gate, loads: map<LoadId, Load>, svc: Service, svc': Service,
                         k: SocketId, phase: Phase)
    requires Placed(gate, loads, svc) && gate'.phases == gate.phases[k := phase]
    requires svc'.live == svc.live && svc'.loading == svc.loading
    requires !phase.Opening? && (phase.Open? ==> svc.live == Some(phase.room))
    ensures Placed(gate', loads, svc')
  {
  }

  lemma JoinerIsPlaced(gate: Gate, loads: map<LoadId, Load>, svc: Service, k: SocketId)
    requires Placed(gate, loads, svc) && k in gate.phases && gate.phases[k].Opening?
    ensures
      var result := Resolved(svc, loads, gate.phases[k].on);
      result.Some? && result.value.Loaded? ==> svc.live == Some(result.value.room)
  {
  }

  lemma SessionKeepsInPlace(s: State, step: SessionStep)
    requires Sharing(s) && InPlace(s) && SessionEnabled(s, step)
    ensures InPlace(SessionApply(s, step))
  {
    hide InFlight, Drop, LastOut, Join, Issue, Encoded, OneRoom, OneLoad, RealResults, RealTimers, RealWrites, Placed,
         Request, StartLoad, Opens, Current, Resolved;
    var t := SessionApply(s, step);
    if !s.eviction.Happened() {
      match step
      case RequestRoom(k, l) => RequestKeepsPlaced(s.gate, s.kind, s.loads, s.svc, k, l);
      case JoinFinish(k) =>
        JoinerIsPlaced(s.gate, s.loads, s.svc, k);
        PhaseKeepsPlaced(s.gate, t.gate, s.loads, s.svc, t.svc, k, t.gate.phases[k]);
      case LeaveFinish(_, _) => SamePlaces(s.gate, s.loads, s.svc, t.svc);
      case _ => PhaseKeepsPlaced(s.gate, t.gate, s.loads, s.svc, t.svc, step.socket, t.gate.phases[step.socket]);
    }
  }

  lemma SamePlaces(gate: Gate, loads: map<LoadId, Load>, svc: Service, svc': Service)
    requires Placed(gate, loads, svc) && svc'.live == svc.live && svc'.loading == svc.loading
    ensures Placed(gate, loads, svc')
  {
  }

  lemma LoadKeepsInPlace(s: State, step: LoadStep)
    requires Sharing(s) && InPlace(s) && LoadEnabled(s, step)
    ensures InPlace(LoadApply(s, step))
  {
    hide NewTrack, NewRoom, OneRoom, RealResults, RealTimers, RealWrites, RealPhases;
    if s.eviction.Happened() {
    } else if step.LoadFinish? {
      hide Placed, OneLoad, Install;
      FinishKeepsPlaced(s.gate, s.loads, s.svc, step.load, step.newRoom,
                        NewRoom(step.doc, s.loads[step.load].stored.None?, s.now));
    }
  }

  lemma EditKeepsInPlace(s: State, step: EditStep)
    requires InPlace(s) && EditEnabled(s, step)
    ensures InPlace(EditApply(s, step))
  {
    hide Accept, Relay, Stamp, TooLarge, ChangePresence, ExpirePresence, Classified;
  }

  lemma SaveKeepsInPlace(s: State, step: SaveStep)
    requires InPlace(s) && SaveEnabled(s, step)
    ensures InPlace(SaveApply(s, step))
  {
    hide SaveStart, Saved, SaveFailed, Issue, Encoded, InFlight, Next;
  }

  lemma LifeKeepsInPlace(s: State, step: LifeStep)
    requires AllHeard(s) && InPlace(s) && LifeEnabled(s, step) && Attended(s, Life(step))
    ensures InPlace(LifeApply(s, step))
  {
    hide Heard, Placed, NobodyArriving, Unloadable;
    match step
    case UnloadTimerFires(timer) =>
      if !s.eviction.Happened() {
        UnloadKeepsPlaced(s, s.timers[timer].room);
      }
    case _ =>
  }

  lemma StepKeepsInPlace(s: State, step: Step)
    requires Sharing(s) && AllHeard(s) && InPlace(s) && Enabled(s, step) && Attended(s, step)
    ensures InPlace(Apply(s, step))
  {
    hide AllHeard, InPlace, Sharing, SessionEnabled, SessionApply, LoadEnabled, LoadApply, EditEnabled, EditApply,
         SaveEnabled, SaveApply, LifeEnabled, LifeApply, Attended;
    match step
    case Session(x) => SessionKeepsInPlace(s, x);
    case Loading(x) => LoadKeepsInPlace(s, x);
    case Change(x) => EditKeepsInPlace(s, x);
    case Saving(x) => SaveKeepsInPlace(s, x);
    case Life(x) => LifeKeepsInPlace(s, x);
  }

  lemma {:induction false} RunKeepsInPlace(s: State, steps: seq<Step>, t: State)
    requires Sharing(s) && AllHeard(s) && InPlace(s) && Run(s, steps, t, Attended)
    ensures AllHeard(t) && InPlace(t)
    decreases |steps|
  {
    hide AllHeard, InPlace, Sharing, Enabled, Apply, Keyed, NobodyArriving;
    if steps != [] {
      StepKeepsSharing(s, steps[0]);
      StepKeepsHeard(s, steps[0]);
      StepKeepsInPlace(s, steps[0]);
      RunKeepsInPlace(Apply(s, steps[0]), steps[1..], t);
    }
  }

  /**
   No missed update. In every run, a socket that finished opening and has not
   begun leaving is in the live room, and the live document is contained in
   its snapshot, plus everything relayed to it, plus its own accepted edits.
  */
  lemma {:induction false} NoMissedUpdate(kind: Kind, steps: seq<Step>, t: State, socket: SocketId)
    requires Run(Start(kind), steps, t, Attended) && !t.eviction.Happened()
    requires socket in t.gate.phases && t.gate.phases[socket].Open?
    ensures t.svc.live.Some? && t.svc.live.value in t.svc.heap && socket in t.hist.known
    ensures socket in t.svc.heap[t.svc.live.value].sockets
    ensures t.svc.heap[t.svc.live.value].doc.ops <= t.hist.known[socket]
  {
    hide Run, Attended;
    RunKeepsInPlace(Start(kind), steps, t);
  }

  // ---- And when a timer is not keyed ----

  /** The socket, if it has the document open, is in the live room and has been given all of it. */
  predicate WellServed(s: State, socket: SocketId) {
    socket in s.gate.phases && s.gate.phases[socket].Open? ==>
      && s.svc.live.Some? && s.svc.live.value in s.svc.heap && socket in s.hist.known
      && socket in s.svc.heap[s.svc.live.value].sockets
      && s.svc.heap[s.svc.live.value].doc.ops <= s.hist.known[socket]
  }

  predicate NobodyHasItOpen(gate: Gate) {
    forall k | k in gate.phases :: !gate.phases[k].Open?
  }

  /**
   The exact condition. Until the first timer that is not keyed everyone is
   served; after the firing of a timer everyone still is if and only if it is
   keyed, or nobody has the document open.
  */
  lemma {:induction false} FiringServesExactly(kind: Kind, past: seq<Step>, s: State, timer: TimerId)
    requires Run(Start(kind), past, s, Attended) && !s.eviction.Happened() && LifeEnabled(s, UnloadTimerFires(timer))
    ensures (forall k | k in s.gate.phases :: WellServed(AfterUnload(s, timer), k)) <==>
            KeyedUnload(s, timer) || NobodyHasItOpen(s.gate)
  {
    hide Run, Attended;
    RunKeepsInPlace(Start(kind), past, s);
    hide Cancel;
    var after := AfterUnload(s, timer);
    if !KeyedUnload(s, timer) && !NobodyHasItOpen(s.gate) {
      var k :| k in s.gate.phases && s.gate.phases[k].Open?;
      assert !WellServed(after, k);
    }
  }
}
