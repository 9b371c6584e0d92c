/**
 Node's event loop over the room service: stretches of calls about any number
 of documents, in any order, on one service object. Seen from one document,
 the others do not exist: its part of the service is what its own calls make
 of it, and for the calls of a machine's run, what the machine says. So what
 is proved of one document's runs holds of every document in the service.
*/
module BoardEventLoop {
  import opened Prelude
  import Spec = BoardRoom
  import M = BoardMachine
  import opened BoardRoomsService
  import BoardSharing

  /** A stretch of a suspended call or a timer, which holds its room already. */
  datatype RoomCall =
    | Enter(socket: Spec.SocketId)
    | Timeout(ids: set<Spec.ClientId>)
    | SaveTimer
    | SaveAnswered(state: Spec.Doc)
    | SaveRefused(now: nat)
    | LeaveEnds(timer: Spec.TimerId)

  datatype Stretch =
    | Ask(newLoad: M.LoadId)
    | Update(socket: Spec.SocketId, update: Spec.Update, size: nat, now: nat)
    | Aware(socket: Spec.SocketId, bytes: nat, change: Spec.PresenceChange)
    | Leave(socket: Spec.SocketId)
    | Loaded(stored: Option<Spec.Doc>, doc: Spec.Doc, id: M.RoomId, now: nat)
    | Settled
    | Evicted
    | OnRoom(room: M.RoomId, what: RoomCall)
    | UnloadTimer(room: M.RoomId)

  datatype Call = Call(kind: M.Kind, boardId: string, stretch: Stretch)

  function Address(call: Call): Key {
    KeyOf(call.kind, call.boardId)
  }

  // ---- What a call does to its own document ----

  function Change(room: Spec.Room, what: RoomCall): Spec.Room {
    match what
    case Enter(socket) => Spec.Join(room, socket)
    case Timeout(ids) => Spec.ExpirePresence(room, ids)
    case SaveTimer => Spec.SaveStart(room)
    case SaveAnswered(state) => Spec.Saved(room, state.size)
    case SaveRefused(now) => Spec.SaveFailed(room, now)
    case LeaveEnds(timer) => room.(unloadTimer := Some(timer))
  }

  function AfterUpdate(svc: M.Service, socket: Spec.SocketId, update: Spec.Update, size: nat, now: nat): M.Service {
    var at := M.Current(svc, socket);
    if at.None? || Spec.TooLarge(svc.heap[at.value], update) then svc
    else M.With(svc, at.value, Spec.Accept(svc.heap[at.value], update, size, now))
  }

  function AfterAware(svc: M.Service, socket: Spec.SocketId, bytes: nat, change: Spec.PresenceChange): M.Service {
    var at := M.Current(svc, socket);
    if at.None? || bytes > Spec.MAX_UPDATE_BYTES then svc
    else M.With(svc, at.value, Spec.ChangePresence(svc.heap[at.value], socket, change))
  }

  function AfterLeave(svc: M.Service, socket: Spec.SocketId): M.Service {
    var at := M.Current(svc, socket);
    if at.None? then svc else M.With(svc, at.value, Spec.LastOut(Spec.Drop(svc.heap[at.value], socket)))
  }

  function Serve(kind: M.Kind, svc: M.Service, stretch: Stretch): M.Service {
    match stretch
    case Ask(newLoad) => M.Request(svc, newLoad).0
    case Update(socket, update, size, now) => AfterUpdate(svc, socket, update, size, now)
    case Aware(socket, bytes, change) => AfterAware(svc, socket, bytes, change)
    case Leave(socket) => AfterLeave(svc, socket)
    case Loaded(stored, doc, id, now) =>
      if M.Unstarted(kind, stored) then svc else M.Install(svc, id, Spec.NewRoom(doc, stored.None?, now))
    case Settled => svc.(loading := None)
    case Evicted => M.Evict(svc)
    case OnRoom(room, what) => if room in svc.heap then M.With(svc, room, Change(svc.heap[room], what)) else svc
    case UnloadTimer(room) => if room in svc.heap then M.Unload(svc, room) else svc
  }

  const Nothing := M.Service(map[], None, None)

  function ServeAll(kind: M.Kind, svc: M.Service, stretches: seq<Stretch>): M.Service
    decreases |stretches|
  {
    if stretches == [] then svc
    else
      var last := |stretches| - 1;
      Serve(kind, ServeAll(kind, svc, stretches[..last]), stretches[last])
  }

  /** The stretches of one document, in order. */
  function Of(calls: seq<Call>, kind: M.Kind, boardId: string): seq<Stretch> {
    if calls == [] then []
    else
      var last := |calls| - 1;
      var earlier := Of(calls[..last], kind, boardId);
      if calls[last].kind == kind && calls[last].boardId == boardId then earlier + [calls[last].stretch] else earlier
  }

  // ---- The loop ----

  /** What everyone but this document sees of a call, and what it sees itself. */
  twostate predicate Served(service: BoardRooms, call: Call)
    requires old(service.Valid())
    reads service, service.made.Values
  {
    && service.Valid()
    && service.At(Address(call)) == Serve(call.kind, old(service.At(Address(call))), call.stretch)
    && forall key | key != Address(call) :: service.At(key) == old(service.At(key))
  }

  method TouchRoom(service: BoardRooms, room: LiveRoom, what: RoomCall)
    requires service.Valid() && service.Owns(room)
    modifies room
    ensures service.OnlyTouched(room) && room.View() == Change(old(room.View()), what)
  {
    match what
    case Enter(socket) =>
      var _, _ := service.FinishJoin(room, socket);
    case Timeout(ids) => service.ExpireStates(room, ids);
    case SaveTimer =>
      var _ := service.BeginSave(room);
    case SaveAnswered(state) => service.SaveSucceeded(room, state);
    case SaveRefused(now) => service.SaveFailed(room, now);
    case LeaveEnds(timer) => service.FinishLeave(room, timer);
  }

  /** Calls about a room some call or timer already holds. */
  method RunOnRoom(service: BoardRooms, room: LiveRoom, call: Call)
    requires service.Valid() && service.Owns(room)
    requires call.stretch.OnRoom? || call.stretch.UnloadTimer?
    requires call.stretch.room == room.id && room.key == Address(call)
    modifies service, room
    ensures service.made == old(service.made) && Served(service, call)
  {
    hide M.With, M.Unload, Change;
    service.RoomIsInHeap(room);
    match call.stretch
    case OnRoom(_, what) => TouchRoom(service, room, what);
    case UnloadTimer(_) => service.Unload(room);
  }

  /** Calls that find their room in the service's maps. */
  method RunOnKey(service: BoardRooms, call: Call)
    requires service.Valid()
    requires call.stretch.Ask? || call.stretch.Update? || call.stretch.Aware? || call.stretch.Leave?
          || call.stretch.Settled? || call.stretch.Evicted?
    modifies service, service.made.Values
    ensures service.made == old(service.made) && Served(service, call)
  {
    hide M.With, Spec.TooLarge, Spec.Accept, Spec.ChangePresence, Spec.Drop, Spec.LastOut, M.Request, M.Evict;
    match call.stretch
    case Ask(newLoad) =>
      var _ := service.RequestRoom(call.kind, call.boardId, newLoad);
    case Update(socket, update, size, now) =>
      var _ := service.ApplyUpdate(call.kind, call.boardId, socket, update, size, now);
    case Aware(socket, bytes, change) =>
      var _ := service.ApplyAwareness(call.kind, call.boardId, socket, bytes, change);
    case Leave(socket) =>
      var _, _ := service.BeginLeave(call.kind, call.boardId, socket);
    case Settled => service.SettleLoad(call.kind, call.boardId);
    case Evicted =>
      var _ := service.EvictKey(call.kind, call.boardId);
  }

  /** The end of a load, which may make a room. */
  method RunLoaded(service: BoardRooms, call: Call) returns (room: LiveRoom?)
    requires service.Valid() && call.stretch.Loaded? && call.stretch.id !in service.made
    modifies service
    ensures Served(service, call)
    ensures room == null ==> service.made == old(service.made)
    ensures room != null ==> fresh(room) && service.made == old(service.made)[call.stretch.id := room]
  {
    hide M.Install, Spec.NewRoom;
    var stretch := call.stretch;
    room := service.FinishLoad(call.kind, call.boardId, stretch.stored, stretch.doc, stretch.id, stretch.now);
  }

  /** Each load is given an identity of its own for its room. */
  ghost predicate OwnIdentities(calls: seq<Call>) {
    forall i, j | 0 <= i < j < |calls| && calls[i].stretch.Loaded? && calls[j].stretch.Loaded? ::
      calls[i].stretch.id != calls[j].stretch.id
  }

  ghost predicate Agrees(service: BoardRooms, calls: seq<Call>)
    reads service, service.made.Values
  {
    forall kind, boardId :: service.At(KeyOf(kind, boardId)) == ServeAll(kind, Nothing, Of(calls, kind, boardId))
  }

  /** One more call, if it did to its document what it should and nothing to the others. */
  lemma OneMoreCall(before: seq<Call>, call: Call, kind: M.Kind, boardId: string)
    ensures
      var after := before + [call];
      if call.kind == kind && call.boardId == boardId
      then ServeAll(kind, Nothing, Of(after, kind, boardId))
        == Serve(kind, ServeAll(kind, Nothing, Of(before, kind, boardId)), call.stretch)
      else Of(after, kind, boardId) == Of(before, kind, boardId)
  {
    var after := before + [call];
    assert after[..|after| - 1] == before;
    var earlier := Of(before, kind, boardId);
    assert (earlier + [call.stretch])[..|earlier|] == earlier;
  }

  twostate lemma StillAgrees(at: (BoardRooms, seq<Call>, Call))
    requires old(at.0.Valid()) && old(Agrees(at.0, at.1)) && Served(at.0, at.2)
    ensures Agrees(at.0, at.1 + [at.2])
  {
    hide Serve, Of, ServeAll, KeyOf;
    var (service, before, call) := at;
    forall kind, boardId
      ensures service.At(KeyOf(kind, boardId)) == ServeAll(kind, Nothing, Of(before + [call], kind, boardId))
    {
      OneMoreCall(before, call, kind, boardId);
      if KeyOf(kind, boardId) == Address(call) {
        KeysAreDistinct(kind, boardId, call.kind, call.boardId);
      }
    }
  }

  twostate lemma NothingHappened(at: (BoardRooms, Call))
    requires old(at.0.Valid()) && unchanged(at.0) && unchanged(at.0.made.Values)
    requires Serve(at.1.kind, at.0.At(Address(at.1)), at.1.stretch) == at.0.At(Address(at.1))
    ensures Served(at.0, at.1)
  {
  }

  /** A call about a room its document does not have does nothing. */
  lemma NoSuchRoom(svc: M.Service, kind: M.Kind, stretch: Stretch)
    requires stretch.OnRoom? || stretch.UnloadTimer?
    requires stretch.room !in svc.heap
    ensures Serve(kind, svc, stretch) == svc
  {
  }

  /**
   One call. `objects` is what suspended calls and timers hold; a call that
   names a room its document never had is dropped.
  */
  method RunCall(service: BoardRooms, objects: map<M.RoomId, LiveRoom>, call: Call)
    returns (objects': map<M.RoomId, LiveRoom>)
    requires service.Valid() && objects == service.made
    requires call.stretch.Loaded? ==> call.stretch.id !in objects
    modifies service, objects.Values
    ensures Served(service, call) && objects' == service.made
    ensures forall id | id in objects' ::
              if id in objects then objects'[id] == objects[id]
              else call.stretch.Loaded? && id == call.stretch.id && fresh(objects'[id])
  {
    hide Served, KeyOf, Serve;
    objects' := objects;
    if call.stretch.OnRoom? || call.stretch.UnloadTimer? {
      var id := call.stretch.room;
      if id in objects && objects[id].key == Address(call) {
        RunOnRoom(service, objects[id], call);
      } else {
        NoSuchRoom(service.At(Address(call)), call.kind, call.stretch);
        NothingHappened((service, call));
      }
    } else if call.stretch.Loaded? {
      var room := RunLoaded(service, call);
      if room != null {
        objects' := objects'[call.stretch.id := room];
      }
    } else {
      RunOnKey(service, call);
    }
  }

  /** The room was made for one of these loads. */
  predicate MadeBy(id: M.RoomId, calls: seq<Call>) {
    exists j | 0 <= j < |calls| :: calls[j].stretch.Loaded? && calls[j].stretch.id == id
  }

  lemma NotMadeYet(calls: seq<Call>, i: nat)
    requires OwnIdentities(calls) && i < |calls| && calls[i].stretch.Loaded?
    ensures !MadeBy(calls[i].stretch.id, calls[..i])
  {
  }

  lemma MadeByMore(id: M.RoomId, calls: seq<Call>, i: nat)
    requires i < |calls|
    ensures calls[..i + 1] == calls[..i] + [calls[i]]
    ensures MadeBy(id, calls[..i]) ==> MadeBy(id, calls[..i + 1])
    ensures calls[i].stretch.Loaded? && calls[i].stretch.id == id ==> MadeBy(id, calls[..i + 1])
  {
    var before, after := calls[..i], calls[..i + 1];
    if MadeBy(id, before) {
      var j :| 0 <= j < |before| && before[j].stretch.Loaded? && before[j].stretch.id == id;
      assert after[j] == before[j];
    }
    assert after[i] == calls[i];
  }

  /** Any calls about any documents, in any order. */
  method EventLoop(calls: seq<Call>) returns (service: BoardRooms)
    requires OwnIdentities(calls)
    ensures service.Valid() && Agrees(service, calls)
  {
    service := new BoardRooms();
    var objects: map<M.RoomId, LiveRoom> := map[];
    for i := 0 to |calls|
      invariant fresh(service) && service.Valid() && objects == service.made
      invariant forall id | id in objects :: fresh(objects[id]) && MadeBy(id, calls[..i])
      invariant Agrees(service, calls[..i])
    {
      hide Agrees, MadeBy, Served, OwnIdentities;
      if calls[i].stretch.Loaded? {
        NotMadeYet(calls, i);
      }
      label before:
      objects := RunCall(service, objects, calls[i]);
      ServedStaysValid@before((service, calls[i]));
      StillAgrees@before((service, calls[..i], calls[i]));
      forall id | id in objects ensures MadeBy(id, calls[..i + 1]) {
        MadeByMore(id, calls, i);
      }
      MadeByMore(0, calls, i);
    }
    assert calls[..|calls|] == calls;
  }

  twostate lemma ServedStaysValid(at: (BoardRooms, Call))
    requires old(at.0.Valid()) && Served(at.0, at.1)
    ensures at.0.Valid()
  {
  }

  // ---- The calls of a machine's run ----

  /** The service calls behind one step of a document's machine. */
  function CallsOf(s: M.State, step: M.Step): (calls: seq<Stretch>)
    requires M.Enabled(s, step)
    ensures |calls| <= 1
  {
    match step
    case Session(RequestRoom(_, newLoad)) => [Ask(newLoad)]
    case Session(JoinFinish(k)) =>
      var result := M.Resolved(s.svc, s.loads, s.gate.phases[k].on).value;
      if result.Loaded? then [OnRoom(result.room, Enter(k))] else []
    case Session(LeaveStart(k, _, _)) => [Leave(k)]
    case Session(LeaveFinish(leave, timer)) => [OnRoom(s.leaves[leave].room, LeaveEnds(timer))]
    case Loading(LoadFinish(l, id, doc)) => [Loaded(s.loads[l].stored, doc, id, s.now)]
    case Loading(LoadSettle(_)) => [Settled]
    case Change(Edit(k, update, size)) => if k in s.gate.registered then [Update(k, update, size, s.now)] else []
    case Change(Presence(k, bytes, change)) => if k in s.gate.registered then [Aware(k, bytes, change)] else []
    case Change(PresenceTimeout(id, ids)) => [OnRoom(id, Timeout(ids))]
    case Saving(SaveTimerFires(id, _)) => [OnRoom(id, SaveTimer)]
    case Saving(SaveOk(i)) => [OnRoom(s.db.writes[i].room, SaveAnswered(s.db.writes[i].doc))]
    case Saving(SaveFail(i)) => [OnRoom(s.db.writes[i].room, SaveRefused(s.now))]
    case Life(UnloadTimerFires(timer)) => [UnloadTimer(s.timers[timer].room)]
    case Life(EvictFinish) => [Evicted]
    case _ => []
  }

  function Trace(s: M.State, steps: seq<M.Step>): seq<Stretch>
    decreases |steps|
  {
    if steps == [] || !M.Enabled(s, steps[0]) then []
    else CallsOf(s, steps[0]) + Trace(M.Apply(s, steps[0]), steps[1..])
  }

  function Only(kind: M.Kind, svc: M.Service, stretches: seq<Stretch>): M.Service
    requires |stretches| <= 1
  {
    if stretches == [] then svc else Serve(kind, svc, stretches[0])
  }

  /** The service of the machine changes by the service's own calls, step by step. */
  lemma SessionIsCalls(s: M.State, step: M.SessionStep)
    requires M.SessionEnabled(s, step)
    ensures M.SessionApply(s, step).svc == Only(s.kind, s.svc, CallsOf(s, M.Session(step)))
    ensures M.SessionApply(s, step).kind == s.kind
  {
    hide M.InFlight, M.Joins, M.Opens, M.StartLoad, M.Cancel, M.Issue, M.Encoded;
  }

  lemma LoadIsCalls(s: M.State, step: M.LoadStep)
    requires M.LoadEnabled(s, step)
    ensures M.LoadApply(s, step).svc == Only(s.kind, s.svc, CallsOf(s, M.Loading(step)))
    ensures M.LoadApply(s, step).kind == s.kind
  {
    hide M.NewTrack, Spec.NewRoom, M.Restores;
  }

  lemma EditIsCalls(s: M.State, step: M.EditStep)
    requires M.EditEnabled(s, step)
    ensures M.EditApply(s, step).svc == Only(s.kind, s.svc, CallsOf(s, M.Change(step)))
    ensures M.EditApply(s, step).kind == s.kind
  {
    hide M.Relay, M.Arrive, M.Stamp, Spec.Accept, Spec.ChangePresence, Spec.TooLarge, Spec.Classified;
  }

  lemma SaveIsCalls(s: M.State, step: M.SaveStep)
    requires M.SaveEnabled(s, step)
    ensures M.SaveApply(s, step).svc == Only(s.kind, s.svc, CallsOf(s, M.Saving(step)))
    ensures M.SaveApply(s, step).kind == s.kind
  {
    hide M.InFlight, M.Issue, M.Encoded, M.Without, Spec.SaveStart;
    match step
    case Commit(i) => M.IndexOfNext(s.db.writes, i);
    case _ =>
  }

  lemma LifeIsCalls(s: M.State, step: M.LifeStep)
    requires M.LifeEnabled(s, step)
    ensures M.LifeApply(s, step).svc == Only(s.kind, s.svc, CallsOf(s, M.Life(step)))
    ensures M.LifeApply(s, step).kind == s.kind
  {
    hide M.Cancel, M.Evict, M.Unload;
  }

  lemma StepIsCalls(s: M.State, step: M.Step)
    requires M.Enabled(s, step)
    ensures M.Apply(s, step).svc == Only(s.kind, s.svc, CallsOf(s, step)) && M.Apply(s, step).kind == s.kind
  {
    hide Only, CallsOf, M.SessionEnabled, M.SessionApply, M.LoadEnabled, M.LoadApply, M.EditEnabled, M.EditApply,
         M.SaveEnabled, M.SaveApply, M.LifeEnabled, M.LifeApply;
    match step
    case Session(x) => SessionIsCalls(s, x);
    case Loading(x) => LoadIsCalls(s, x);
    case Change(x) => EditIsCalls(s, x);
    case Saving(x) => SaveIsCalls(s, x);
    case Life(x) => LifeIsCalls(s, x);
  }

  lemma {:induction false} ServeConcat(kind: M.Kind, svc: M.Service, xs: seq<Stretch>, ys: seq<Stretch>)
    ensures ServeAll(kind, svc, xs + ys) == ServeAll(kind, ServeAll(kind, svc, xs), ys)
    decreases |ys|
  {
    if ys == [] {
      assert xs + ys == xs;
    } else {
      var last := |ys| - 1;
      ServeConcat(kind, svc, xs, ys[..last]);
      assert (xs + ys)[..|xs + ys| - 1] == xs + ys[..last];
    }
  }

  /** A whole run changes the service as its calls do. */
  lemma {:induction false} RunIsCalls(s: M.State, steps: seq<M.Step>, t: M.State, allowed: M.Assumption)
    requires M.Run(s, steps, t, allowed)
    ensures t.svc == ServeAll(s.kind, s.svc, Trace(s, steps))
    decreases |steps|
  {
    hide M.Enabled, M.Apply, CallsOf;
    if steps != [] {
      var u := M.Apply(s, steps[0]);
      var calls := CallsOf(s, steps[0]);
      StepIsCalls(s, steps[0]);
      RunIsCalls(u, steps[1..], t, allowed);
      OneIsAll(s.kind, s.svc, calls);
      ServeConcat(s.kind, s.svc, calls, Trace(u, steps[1..]));
    }
  }

  lemma OneIsAll(kind: M.Kind, svc: M.Service, stretches: seq<Stretch>)
    requires |stretches| <= 1
    ensures ServeAll(kind, svc, stretches) == Only(kind, svc, stretches)
  {
    if stretches != [] {
      assert stretches[..0] == [];
    }
  }

  /**
   Each document of the service is a machine. Whatever calls about other
   documents come in between, when this document's own calls are those of a
   machine's run, its part of the service is the machine's.
  */
  lemma {:induction false} EachDocumentIsAMachine(service: BoardRooms, calls: seq<Call>, kind: M.Kind, boardId: string,
                               steps: seq<M.Step>, t: M.State, allowed: M.Assumption)
    requires Agrees(service, calls)
    requires M.Run(M.Start(kind), steps, t, allowed) && Of(calls, kind, boardId) == Trace(M.Start(kind), steps)
    ensures service.At(KeyOf(kind, boardId)) == t.svc
  {
    hide M.Run;
    RunIsCalls(M.Start(kind), steps, t, allowed);
  }

  /** So the objects of one document keep to one undisposed room, whatever the others do. */
  lemma {:induction false} OneRoomPerDocument(service: BoardRooms, calls: seq<Call>, kind: M.Kind, boardId: string,
                           steps: seq<M.Step>, t: M.State)
    requires service.Valid() && Agrees(service, calls)
    requires M.Run(M.Start(kind), steps, t, M.Keyed) && Of(calls, kind, boardId) == Trace(M.Start(kind), steps)
    ensures forall id, other | id in service.made && other in service.made && id != other ::
              service.made[id].key == KeyOf(kind, boardId) == service.made[other].key ==>
                service.made[id].disposed || service.made[other].disposed
  {
    hide M.Run, KeyOf, Of;
    EachDocumentIsAMachine(service, calls, kind, boardId, steps, t, M.Keyed);
    BoardSharing.AtMostOneLoadAndOneRoom(kind, steps, t);
    var key := KeyOf(kind, boardId);
    assert forall id | id in service.made && service.made[id].key == key ::
        id in service.At(key).heap && service.At(key).heap[id] == service.made[id].View();
  }
}
