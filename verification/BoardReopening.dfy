/**
 Opening a document that is closed, step by step and without a fault: whoever
 comes next is given a new room made from the row as it is then, whatever older
 rooms and writes are still about.
*/
module BoardReopening {
  import opened Prelude
  import opened BoardRoom
  import opened BoardMachine
  import opened BoardSharing

  /** No room is live, every load has ended, and the next one will make a room. */
  predicate Openable(s: State) {
    && s.svc.live.None? && (s.svc.loading.Some? ==> s.svc.loading.value in s.loads)
    && (forall l | l in s.loads :: s.loads[l].Done?)
    && (s.kind.Code? || s.db.store.Some?)
  }

  /** What the next load makes of the row; a document without one is seeded, here with nothing. */
  function NextDoc(db: Database): Doc {
    if db.store.Some? then db.store.value else Doc({}, 0)
  }

  /** Everything but the loads, the gate and what sockets were sent is as it was. */
  predicate SameWorld(s: State, t: State) {
    && t.kind == s.kind && t.now == s.now && t.timers == s.timers && t.leaves == s.leaves && t.db == s.db
    && t.eviction == s.eviction
  }

  /** Every other socket is where it was. */
  predicate OthersStay(before: Gate, after: Gate, k: SocketId) {
    && after.phases.Keys == before.phases.Keys + {k}
    && forall other | other in before.phases && other != k :: after.phases[other] == before.phases[other]
  }

  /** A socket waits for a load that has not read the row yet. */
  predicate Asked(s: State, k: SocketId, l: LoadId) {
    && s.svc.live.None? && s.svc.loading == Some(l) && l in s.loads && s.loads[l] == Reading
    && k in s.gate.phases && s.gate.phases[k] == Opening(OnLoad(l)) && k in s.hist.known
    && (s.kind.Code? ==> k in s.gate.registered)
  }

  /** The last load is forgotten. */
  lemma Forgets(s: State) returns (t: State)
    requires Openable(s)
    ensures Reaches(s, t, Ordinary) && t == s.(svc := s.svc.(loading := None))
  {
    hide Reaches;
    ReachesItself(s, Ordinary);
    t := s;
    if s.svc.loading.Some? {
      t := Then(s, t, Loading(LoadSettle(s.svc.loading.value)), Ordinary);
    }
  }

  lemma Asks(s: State, k: SocketId, l: LoadId) returns (t: State)
    requires Openable(s) && k !in s.gate.phases && l !in s.loads
    ensures Reaches(s, t, Ordinary) && SameWorld(s, t) && Asked(t, k, l) && OthersStay(s.gate, t.gate, k)
    ensures t.svc.heap == s.svc.heap && t.loads == s.loads[l := Reading]
    ensures t.hist.tracks == s.hist.tracks && t.hist.accepted == s.hist.accepted
  {
    hide Reaches;
    t := Forgets(s);
    t := Then(s, t, Session(Subscribe(k)), Ordinary);
    t := Then(s, t, Session(RequestRoom(k, l)), Ordinary);
  }

  /** The room is made and installed. */
  lemma Loads(s: State, k: SocketId, l: LoadId, room: RoomId) returns (t: State)
    requires Asked(s, k, l) && room !in s.svc.heap && (s.kind.Code? || s.db.store.Some?)
    ensures Reaches(s, t, Ordinary) && SameWorld(s, t) && t.gate == s.gate && t.hist.known == s.hist.known
    ensures t.svc.live == Some(room) && t.svc.loading.None?
    ensures t.svc.heap == s.svc.heap[room := NewRoom(NextDoc(s.db), s.db.store.None?, s.now)]
    ensures t.hist.tracks.Keys == s.hist.tracks.Keys + {room}
    ensures t.hist.accepted == s.hist.accepted + NextDoc(s.db).ops
    ensures t.loads == s.loads[l := Done(Loaded(room))]
  {
    hide Reaches, NewRoom, NewTrack;
    ReachesItself(s, Ordinary);
    t := Then(s, s, Loading(LoadRead(l)), Ordinary);
    t := Then(s, t, Loading(LoadFinish(l, room, NextDoc(s.db))), Ordinary);
    t := Then(s, t, Loading(LoadSettle(l)), Ordinary);
  }

  /** The socket is alone in its own new room. */
  predicate Inside(s: State, t: State, k: SocketId, room: RoomId) {
    && t.svc == Service(s.svc.heap[room := Join(NewRoom(NextDoc(s.db), s.db.store.None?, s.now), k)], Some(room), None)
    && t.hist.tracks.Keys == s.hist.tracks.Keys + {room}
    && t.hist.accepted == s.hist.accepted + NextDoc(s.db).ops
    && k in t.gate.phases && t.gate.phases[k] == Open(room) && k in t.gate.registered
    && OthersStay(s.gate, t.gate, k)
  }

  /** The socket is let in. */
  lemma Enters(s: State, k: SocketId, l: LoadId, room: RoomId) returns (t: State)
    requires k in s.gate.phases && s.gate.phases[k] == Opening(OnLoad(l)) && k in s.hist.known
    requires l in s.loads && s.loads[l] == Done(Loaded(room)) && s.svc.loading.None?
    requires room in s.svc.heap && s.svc.heap[room].unloadTimer.None?
    ensures Reaches(s, t, Ordinary) && SameWorld(s, t) && t.loads == s.loads
    ensures t.svc == Enter(s.svc, room, k) && t.gate == Joins(s.gate, k, Loaded(room))
    ensures t.hist.tracks == s.hist.tracks && t.hist.accepted == s.hist.accepted
  {
    hide Reaches, Enter, Joins;
    ReachesItself(s, Ordinary);
    t := Then(s, s, Session(JoinFinish(k)), Ordinary);
  }

  lemma OpensAgain(s: State, k: SocketId, l: LoadId, room: RoomId) returns (t: State)
    requires Openable(s) && k !in s.gate.phases && l !in s.loads && room !in s.svc.heap
    ensures Reaches(s, t, Ordinary) && SameWorld(s, t) && Inside(s, t, k, room)
    ensures t.loads == s.loads[l := Done(Loaded(room))]
  {
    hide Reaches, NewRoom, Join, Apply, Enabled, Ordinary, Run, NextDoc;
    var asked := Asks(s, k, l);
    var loaded := Loads(asked, k, l, room);
    NewRoomHasNoTimer(NextDoc(s.db), s.db.store.None?, s.now);
    t := Enters(loaded, k, l, room);
    Onwards(s, asked, loaded, Ordinary);
    Onwards(s, loaded, t, Ordinary);
  }

  lemma NewRoomHasNoTimer(doc: Doc, seeded: bool, now: nat)
    ensures NewRoom(doc, seeded, now).unloadTimer.None? && NewRoom(doc, seeded, now).doc == doc
  {
  }

  /** Somebody can always come: names and numbers do not run out. */
  lemma SomebodyOpens(s: State) returns (t: State, k: SocketId, room: RoomId)
    requires Openable(s)
    ensures Reaches(s, t, Ordinary) && SameWorld(s, t) && Inside(s, t, k, room) && room !in s.svc.heap
  {
    hide Reaches, Inside, SameWorld;
    k := FreshName(s.gate.phases.Keys);
    var l := FreshNumber(s.loads.Keys);
    room := FreshNumber(s.svc.heap.Keys);
    t := OpensAgain(s, k, l, room);
  }

  // ---- A project nobody has started ----

  predicate NotStarted(s: State, step: Step) {
    !(step.Life? && step.life.StartProject?)
  }

  /** There is no row, no room and nothing on its way to either. */
  ghost predicate Blank(s: State) {
    && s.kind.Sandbox? && s.db.store.None? && s.db.writes == [] && s.svc.heap == map[] && s.svc.live.None?
    && s.timers == map[] && s.leaves == map[]
    && (forall l | l in s.loads && s.loads[l].Got? :: s.loads[l].stored.None?)
    && (forall l | l in s.loads && s.loads[l].Done? :: !s.loads[l].result.Loaded?)
    && (forall k | k in s.gate.phases && s.gate.phases[k].Opening? :: s.gate.phases[k].on.OnLoad?)
  }

  lemma SessionKeepsBlank(s: State, step: SessionStep)
    requires Blank(s) && SessionEnabled(s, step)
    ensures Blank(SessionApply(s, step))
  {
    hide Drop, LastOut, Join, InFlight, Enter, With, Issue, Encoded;
  }

  lemma StepKeepsBlank(s: State, step: Step)
    requires Blank(s) && Enabled(s, step) && NotStarted(s, step)
    ensures Blank(Apply(s, step))
  {
    match step
    case Session(x) =>
      hide Blank;
      SessionKeepsBlank(s, x);
    case Loading(x) => hide NewRoom, NewTrack, Install;
    case Change(x) => hide Accept, Relay, ChangePresence, TooLarge, Classified, Arrive, Stamp, With;
    case Saving(x) =>
    case Life(x) => hide Cancel, Unload;
  }

  /** However often it is opened, a project stays without room and row until somebody starts it. */
  lemma {:induction false} ProjectsAreStartedOnPurpose(s: State, steps: seq<Step>, t: State)
    requires Blank(s) && Run(s, steps, t, NotStarted)
    ensures Blank(t)
    decreases |steps|
  {
    hide Blank, Enabled, Apply, NotStarted;
    if steps != [] {
      StepKeepsBlank(s, steps[0]);
      ProjectsAreStartedOnPurpose(Apply(s, steps[0]), steps[1..], t);
    }
  }
}
