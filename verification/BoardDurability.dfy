/**
 Durability: until a board is evicted, every accepted edit stays in the live
 document, or, when no room is live, in the stored row and in every write that
 may still replace it. It assumes that writes commit in the order they were
 issued (a guard of the machine) and that unload timers are settled: a room
 closes with none of its writes outstanding. Calm closings are enough; BoardLoss
 shows that they are exact, and BoardUnloadRace a run that breaks them.
*/
module BoardDurability {
  import opened Prelude
  import opened BoardRoom
  import opened BoardMachine
  import opened BoardSharing

  /** What the row will hold once every write issued has committed. */
  function Settles(db: Database): Option<Doc> {
    if db.writes != [] && !db.writes[|db.writes| - 1].committed
    then Some(db.writes[|db.writes| - 1].doc) else db.store
  }

  /** The row, and every write that may still replace it, hold these operations. */
  predicate Carries(db: Database, ops: set<Op>) {
    && ops <= Ops(db.store)
    && forall i | 0 <= i < |db.writes| && !db.writes[i].committed :: ops <= db.writes[i].doc.ops
  }

  /** Writes commit in order, so the committed ones come first. */
  ghost predicate InOrder(writes: seq<Write>) {
    forall i, j | 0 <= i < j < |writes| && writes[j].committed :: writes[i].committed
  }

  /** Each write still to commit holds what the row and the writes before it hold. */
  ghost predicate Growing(db: Database) {
    && (forall i | 0 <= i < |db.writes| && !db.writes[i].committed :: Ops(db.store) <= db.writes[i].doc.ops)
    && (forall i, j | 0 <= i < j < |db.writes| && !db.writes[i].committed && !db.writes[j].committed ::
          db.writes[i].doc.ops <= db.writes[j].doc.ops)
  }

  ghost predicate OnlyAccepted(db: Database, accepted: set<Op>) {
    && Ops(db.store) <= accepted
    && forall i | 0 <= i < |db.writes| :: db.writes[i].doc.ops <= accepted
  }

  /** The database of a document whose edits so far are `accepted`. */
  ghost predicate Tidy(db: Database, accepted: set<Op>) {
    InOrder(db.writes) && Growing(db) && OnlyAccepted(db, accepted)
  }

  /** Writes left over from rooms that have closed come before this room's own. */
  ghost predicate OwnLast(id: RoomId, writes: seq<Write>) {
    forall i, j | 0 <= i < j < |writes| && writes[i].room == id :: writes[j].room == id
  }

  predicate OwnPending(id: RoomId, writes: seq<Write>) {
    writes != [] && writes[|writes| - 1].room == id && !writes[|writes| - 1].committed
  }

  /** The live room holds every accepted edit, and when clean, is what the row settles to. */
  ghost predicate RoomHolds(kind: Kind, id: RoomId, room: Room, db: Database, accepted: set<Op>) {
    && accepted == room.doc.ops
    && Tidy(db, accepted) && OwnLast(id, db.writes)
    && (room.dirtySince.None? ==> Written(id, db, accepted))
    && (kind.Sandbox? ==> db.store.Some?)
  }

  /** The last write of the room holds its document, or the row does and nothing will replace it by less. */
  predicate Written(id: RoomId, db: Database, ops: set<Op>) {
    if OwnPending(id, db.writes) then db.writes[|db.writes| - 1].doc.ops == ops
    else db.store.Some? && Carries(db, ops)
  }

  /** With no room live, the row holds every accepted edit, and nothing will replace it by less. */
  ghost predicate RowHolds(kind: Kind, loads: map<LoadId, Load>, db: Database, accepted: set<Op>) {
    && Tidy(db, accepted) && Carries(db, accepted)
    && (kind.Sandbox? && db.store.None? ==> db.writes == [])
    && (forall l | l in loads && loads[l].Got? :: GoodLoad(kind, loads[l].stored, db, accepted))
  }

  predicate GoodLoad(kind: Kind, stored: Option<Doc>, db: Database, accepted: set<Op>) {
    if stored.Some? then db.store.Some? && stored.value.ops == accepted
    else kind.Sandbox? || accepted == {}
  }

  ghost predicate Durable(s: State) {
    if s.svc.live.Some?
    then
      && s.svc.live.value in s.svc.heap
      && RoomHolds(s.kind, s.svc.live.value, s.svc.heap[s.svc.live.value], s.db, s.hist.accepted)
    else RowHolds(s.kind, s.loads, s.db, s.hist.accepted)
  }

  ghost predicate DurableSoFar(s: State) {
    s.eviction.Happened() || Durable(s)
  }

  // ---- The database alone ----

  lemma CommitKeepsTidy(db: Database, accepted: set<Op>, i: nat)
    requires Tidy(db, accepted) && Next(db.writes, i)
    ensures Tidy(Committed(db, i), accepted)
    ensures forall ops | Carries(db, ops) :: Carries(Committed(db, i), ops)
  {
  }

  function Committed(db: Database, i: nat): Database
    requires i < |db.writes|
  {
    db.(store := Some(db.writes[i].doc), writes := db.writes[i := db.writes[i].(committed := true)])
  }

  lemma AnswerKeepsTidy(db: Database, accepted: set<Op>, i: nat)
    requires Tidy(db, accepted) && i < |db.writes|
    ensures Tidy(db.(writes := Without(db.writes, i)), accepted)
    ensures forall ops | Carries(db, ops) :: Carries(db.(writes := Without(db.writes, i)), ops)
  {
    var rest := Without(db.writes, i);
    assert forall j | 0 <= j < |rest| :: rest[j] == db.writes[if j < i then j else j + 1];
  }

  lemma IssueKeepsTidy(db: Database, id: RoomId, room: Room, w: WriteId)
    requires Tidy(db, room.doc.ops)
    ensures Tidy(Issue(db, id, room, w), room.doc.ops)
  {
  }

  lemma ArriveKeepsTidy(db: Database, accepted: set<Op>, id: RoomId, bytes: nat, more: set<Op>)
    requires Tidy(db, accepted) && accepted <= more
    ensures Tidy(db.(writes := Arrive(db.writes, id, bytes)), more)
  {
    hide Arrive;
    var after := db.(writes := Arrive(db.writes, id, bytes));
    assert InOrder(after.writes);
    assert OnlyAccepted(after, more);
    assert Growing(after);
  }

  /** Counting bytes that arrive changes nothing about what is written. */
  lemma ArriveKeepsWritten(db: Database, id: RoomId, bytes: nat, ops: set<Op>)
    ensures Written(id, db.(writes := Arrive(db.writes, id, bytes)), ops) == Written(id, db, ops)
    ensures OwnLast(id, db.writes) ==> OwnLast(id, Arrive(db.writes, id, bytes))
  {
    hide Arrive;
  }

  /** In a tidy database only the row has to be looked at. */
  lemma RowDecides(db: Database, accepted: set<Op>, ops: set<Op>)
    requires Tidy(db, accepted)
    ensures Carries(db, ops) <==> ops <= Ops(db.store)
  {
  }

  // ---- One room at a time ----

  lemma LoadedRoomHolds(kind: Kind, loads: map<LoadId, Load>, db: Database, accepted: set<Op>, l: LoadId,
                        id: RoomId, doc: Doc, now: nat)
    requires RowHolds(kind, loads, db, accepted) && l in loads && loads[l].Got?
    requires Restores(loads[l].stored, doc) && !Unstarted(kind, loads[l].stored)
    requires forall i | 0 <= i < |db.writes| :: db.writes[i].room != id
    ensures RoomHolds(kind, id, NewRoom(doc, loads[l].stored.None?, now), db, accepted + doc.ops)
  {
    hide InOrder, Growing;
    assert accepted + doc.ops == doc.ops;
  }

  lemma EditedRoomHolds(kind: Kind, id: RoomId, room: Room, db: Database, accepted: set<Op>, update: Update, size: nat,
                        now: nat)
    requires RoomHolds(kind, id, room, db, accepted)
    ensures RoomHolds(kind, id, Accept(room, update, size, now), db.(writes := Arrive(db.writes, id, update.bytes)),
                      accepted + update.ops)
  {
    hide Tidy, OwnLast, Written, Arrive, SaveDelay;
    var after := Accept(room, update, size, now);
    assert after.doc.ops == accepted + update.ops;
    ArriveKeepsTidy(db, accepted, id, update.bytes, accepted + update.ops);
    ArriveKeepsWritten(db, id, update.bytes, accepted);
    if after.dirtySince.None? {
      AcceptedWhileClean(room, update, size, now);
      assert accepted + update.ops == accepted;
    }
  }

  /** News leaves a room dirty. */
  lemma AcceptedWhileClean(room: Room, update: Update, size: nat, now: nat)
    requires Accept(room, update, size, now).dirtySince.None?
    ensures update.ops <= room.doc.ops && room.dirtySince.None?
  {
  }

  /** Anything that leaves the document and the dirty mark alone. */
  lemma SameRoomHolds(kind: Kind, id: RoomId, room: Room, room': Room, db: Database, accepted: set<Op>)
    requires RoomHolds(kind, id, room, db, accepted) && room'.doc == room.doc && room'.dirtySince == room.dirtySince
    ensures RoomHolds(kind, id, room', db, accepted)
  {
  }

  lemma SavingRoomHolds(kind: Kind, id: RoomId, room: Room, db: Database, accepted: set<Op>, w: WriteId)
    requires RoomHolds(kind, id, room, db, accepted)
    ensures RoomHolds(kind, id, SaveStart(room), Issue(db, id, room, w), accepted)
  {
    hide Tidy;
    IssueKeepsTidy(db, id, room, w);
  }

  lemma CommitHolds(kind: Kind, id: RoomId, room: Room, db: Database, accepted: set<Op>, i: nat)
    requires RoomHolds(kind, id, room, db, accepted) && Next(db.writes, i)
    ensures RoomHolds(kind, id, room, Committed(db, i), accepted)
  {
    CommitKeepsTidy(db, accepted, i);
    hide Growing;
    if room.dirtySince.None? && OwnPending(id, db.writes) && i == |db.writes| - 1 {
      assert Carries(Committed(db, i), accepted);
    }
  }

  /** One of the room's own writes is answered: refused writes leave the room dirty. */
  lemma AnsweredHolds(kind: Kind, id: RoomId, room: Room, room': Room, db: Database, accepted: set<Op>, i: nat)
    requires RoomHolds(kind, id, room, db, accepted) && i < |db.writes|
    requires room'.doc == room.doc
    requires room'.dirtySince.Some? || (room'.dirtySince == room.dirtySince && db.writes[i].committed)
    ensures RoomHolds(kind, id, room', db.(writes := Without(db.writes, i)), accepted)
  {
    AnswerKeepsTidy(db, accepted, i);
    if db.writes[i].committed {
      LastStays(id, db.writes, i);
    }
    hide Tidy;
    var rest := Without(db.writes, i);
    assert forall j | 0 <= j < |rest| :: rest[j] == db.writes[if j < i then j else j + 1];
  }

  /** A write left over from a closed room is answered, well or badly. */
  lemma LeftoverHolds(kind: Kind, id: RoomId, room: Room, db: Database, accepted: set<Op>, i: nat)
    requires RoomHolds(kind, id, room, db, accepted) && i < |db.writes| && db.writes[i].room != id
    ensures RoomHolds(kind, id, room, db.(writes := Without(db.writes, i)), accepted)
  {
    AnswerKeepsTidy(db, accepted, i);
    hide Tidy;
    var rest := Without(db.writes, i);
    assert forall j | 0 <= j < |rest| :: rest[j] == db.writes[if j < i then j else j + 1];
    if OwnPending(id, db.writes) {
      assert rest[|rest| - 1] == db.writes[|db.writes| - 1];
    }
  }

  /** Answering a committed write leaves the last pending one where it is. */
  lemma LastStays(id: RoomId, writes: seq<Write>, i: nat)
    requires i < |writes| && writes[i].committed && InOrder(writes)
    ensures OwnPending(id, Without(writes, i)) <==> OwnPending(id, writes)
    ensures OwnPending(id, writes) ==> Without(writes, i)[|writes| - 2] == writes[|writes| - 1]
  {
    var rest := Without(writes, i);
    assert forall j | 0 <= j < |rest| :: rest[j] == writes[if j < i then j else j + 1];
  }

  /** Any room may change in place, if its document and dirty mark stay. */
  lemma WithKeepsDurable(s: State, id: RoomId, room: Room)
    requires Durable(s) && id in s.svc.heap
    requires room.doc == s.svc.heap[id].doc && room.dirtySince == s.svc.heap[id].dirtySince
    ensures Durable(s.(svc := With(s.svc, id, room)))
  {
    hide RoomHolds, RowHolds;
    if s.svc.live == Some(id) {
      SameRoomHolds(s.kind, id, s.svc.heap[id], room, s.db, s.hist.accepted);
    }
  }

  // ---- One group of steps at a time ----

  lemma SessionKeepsDurable(s: State, step: SessionStep)
    requires Durable(s) && SessionEnabled(s, step)
    ensures Durable(SessionApply(s, step))
  {
    hide RoomHolds, RowHolds, InFlight, Joins, Owned, SaveStart;
    match step
    case RequestRoom(k, l) => NewLoadHolds(s.kind, s.loads, s.db, s.hist.accepted, l);
    case JoinFinish(k) =>
      var result := Resolved(s.svc, s.loads, s.gate.phases[k].on).value;
      if result.Loaded? {
        WithKeepsDurable(s, result.room, Join(s.svc.heap[result.room], k));
      }
    case LeaveStart(k, leave, write) =>
      hide Issue, Encoded;
      var at := Current(s.svc, k);
      if at.Some? {
        var room := Drop(s.svc.heap[at.value], k);
        SameRoomHolds(s.kind, at.value, s.svc.heap[at.value], room, s.db, s.hist.accepted);
        SavingRoomHolds(s.kind, at.value, room, s.db, s.hist.accepted, write);
        EncodingKeepsAccepted(s.hist, at.value, room);
      }
    case LeaveFinish(leave, timer) =>
      var id := s.leaves[leave].room;
      WithKeepsDurable(s, id, s.svc.heap[id].(unloadTimer := Some(timer)));
    case _ =>
  }

  lemma NewLoadHolds(kind: Kind, loads: map<LoadId, Load>, db: Database, accepted: set<Op>, l: LoadId)
    requires l !in loads
    ensures RowHolds(kind, loads, db, accepted) ==> RowHolds(kind, loads[l := Reading], db, accepted)
  {
  }

  lemma EncodingKeepsAccepted(hist: History, id: RoomId, room: Room)
    ensures id in hist.tracks ==> Encoded(hist, id, room).accepted == hist.accepted
  {
  }

  /** What a load reads while no room is live. */
  lemma RowIsGood(kind: Kind, db: Database, accepted: set<Op>)
    requires Tidy(db, accepted) && Carries(db, accepted)
    ensures GoodLoad(kind, db.store, db, accepted)
  {
  }

  lemma LoadKeepsDurable(s: State, step: LoadStep)
    requires OneLoad(s.svc, s.loads) && RealWrites(s.svc.heap.Keys, s.db.writes) && Durable(s) && LoadEnabled(s, step)
    ensures Durable(LoadApply(s, step))
  {
    hide Tidy;
    match step
    case LoadFinish(l, id, doc) =>
      hide RoomHolds, NewRoom, NewTrack;
      if !Unstarted(s.kind, s.loads[l].stored) {
        LoadedRoomHolds(s.kind, s.loads, s.db, s.hist.accepted, l, id, doc, s.now);
      }
    case _ =>
      hide RoomHolds, Carries;
      if s.svc.live.None? {
        RowIsGood(s.kind, s.db, s.hist.accepted);
      }
  }

  lemma EditKeepsDurable(s: State, step: EditStep)
    requires Durable(s) && EditEnabled(s, step)
    ensures Durable(EditApply(s, step))
  {
    hide RoomHolds, RowHolds, Accept, Relay, Stamp, TooLarge, Owned, Classified;
    match step
    case Edit(k, update, size) =>
      var at := Admits(s.svc, s.gate, k, update);
      if at.Some? {
        EditedRoomHolds(s.kind, at.value, s.svc.heap[at.value], s.db, s.hist.accepted, update, size, s.now);
      }
    case Presence(k, _, change) =>
      var at := Current(s.svc, k);
      if at.Some? {
        WithKeepsDurable(s, at.value, ChangePresence(s.svc.heap[at.value], k, change));
      }
    case PresenceTimeout(id, ids) => WithKeepsDurable(s, id, ExpirePresence(s.svc.heap[id], ids));
  }

  /** Every room with a save timer is the live one. */
  lemma SavingRoomIsLive(svc: Service, id: RoomId)
    requires OneRoom(svc) && id in svc.heap && svc.heap[id].saveTimer.Some?
    ensures svc.live == Some(id)
  {
  }

  lemma SaveKeepsDurable(s: State, step: SaveStep)
    requires OneRoom(s.svc) && Durable(s) && SaveEnabled(s, step)
    ensures Durable(SaveApply(s, step))
  {
    hide OneRoom;
    match step
    case SaveTimerFires(id, write) =>
      hide RoomHolds, RowHolds, SaveStart, Issue, Encoded, InFlight;
      SavingRoomIsLive(s.svc, id);
      SavingRoomHolds(s.kind, id, s.svc.heap[id], s.db, s.hist.accepted, write);
      EncodingKeepsAccepted(s.hist, id, s.svc.heap[id]);
    case Commit(i) =>
      hide RoomHolds, RowHolds, Next;
      IndexOfNext(s.db.writes, i);
      if s.svc.live.Some? {
        CommitHolds(s.kind, s.svc.live.value, s.svc.heap[s.svc.live.value], s.db, s.hist.accepted, i);
      } else {
        ClosedCommitHolds(s.kind, s.loads, s.db, s.hist.accepted, i);
      }
    case SaveOk(i) => AnswerKeepsDurable(s, i, Saved(s.svc.heap[s.db.writes[i].room], s.db.writes[i].doc.size));
    case SaveFail(i) => AnswerKeepsDurable(s, i, SaveFailed(s.svc.heap[s.db.writes[i].room], s.now));
  }

  lemma ClosedCommitHolds(kind: Kind, loads: map<LoadId, Load>, db: Database, accepted: set<Op>, i: nat)
    requires RowHolds(kind, loads, db, accepted) && Next(db.writes, i)
    ensures RowHolds(kind, loads, Committed(db, i), accepted)
  {
    CommitKeepsTidy(db, accepted, i);
    hide Tidy;
  }

  lemma ClosedAnswerHolds(kind: Kind, loads: map<LoadId, Load>, db: Database, accepted: set<Op>, i: nat)
    requires RowHolds(kind, loads, db, accepted) && i < |db.writes|
    ensures RowHolds(kind, loads, db.(writes := Without(db.writes, i)), accepted)
  {
    AnswerKeepsTidy(db, accepted, i);
    hide Tidy;
  }

  lemma AnswerKeepsDurable(s: State, i: nat, room': Room)
    requires Durable(s) && i < |s.db.writes| && s.db.writes[i].room in s.svc.heap
    requires
      var room := s.svc.heap[s.db.writes[i].room];
      && room'.doc == room.doc
      && (room'.dirtySince.Some? || (room'.dirtySince == room.dirtySince && s.db.writes[i].committed))
    ensures Durable(s.(db := s.db.(writes := Without(s.db.writes, i)), svc := With(s.svc, s.db.writes[i].room, room')))
  {
    hide RoomHolds, RowHolds, Without;
    var id := s.db.writes[i].room;
    if s.svc.live.None? {
      ClosedAnswerHolds(s.kind, s.loads, s.db, s.hist.accepted, i);
    } else if s.svc.live == Some(id) {
      AnsweredHolds(s.kind, id, s.svc.heap[id], room', s.db, s.hist.accepted, i);
    } else {
      LeftoverHolds(s.kind, s.svc.live.value, s.svc.heap[s.svc.live.value], s.db, s.hist.accepted, i);
    }
  }

  /** A calm unload hands the document over to the row, which already has it. */
  lemma UnloadedRoomHolds(s: State, id: RoomId)
    requires OneLoad(s.svc, s.loads) && Durable(s) && s.svc.live == Some(id)
    requires s.svc.heap[id].doc.ops <= Ops(s.db.store)
    ensures RowHolds(s.kind, s.loads, s.db, s.hist.accepted)
    ensures s.hist.accepted == s.svc.heap[id].doc.ops
  {
    RowDecides(s.db, s.hist.accepted, s.hist.accepted);
  }

  lemma LifeKeepsDurable(s: State, step: LifeStep)
    requires OneLoad(s.svc, s.loads) && DurableSoFar(s) && LifeEnabled(s, step) && Calm(s, Life(step))
    ensures DurableSoFar(LifeApply(s, step))
  {
    hide RoomHolds, OneLoad;
    if !s.eviction.Happened() {
      match step
      case UnloadTimerFires(timer) =>
        hide RowHolds;
        var id := s.timers[timer].room;
        if Unloadable(s.svc.heap[id]) && s.svc.live.Some? {
          UnloadedRoomHolds(s, id);
        }
      case StartProject(doc) => StartedProjectHolds(s, doc);
      case _ =>
        hide RowHolds;
    }
  }

  /** A project starts only where nothing was ever loaded or written. */
  lemma StartedProjectHolds(s: State, doc: Doc)
    requires Durable(s) && s.kind.Sandbox? && s.db.store.None?
    ensures s.svc.live.None?
    ensures RowHolds(s.kind, s.loads, s.db.(store := Some(doc)), s.hist.accepted + doc.ops)
  {
  }

  lemma StepKeepsDurable(s: State, step: Step)
    requires Sharing(s) && DurableSoFar(s) && Enabled(s, step) && Calm(s, step)
    ensures DurableSoFar(Apply(s, step))
  {
    hide Durable, OneRoom, OneLoad, RealResults, RealPhases, RealTimers, RealWrites, SessionEnabled, LoadEnabled,
         EditEnabled, SaveEnabled, LifeEnabled, LifeApply, Calm;
    match step
    case Session(x) => if !s.eviction.Happened() { SessionKeepsDurable(s, x); } EvictionStays(s, step);
    case Loading(x) => if !s.eviction.Happened() { LoadKeepsDurable(s, x); } EvictionStays(s, step);
    case Change(x) => if !s.eviction.Happened() { EditKeepsDurable(s, x); } EvictionStays(s, step);
    case Saving(x) => if !s.eviction.Happened() { SaveKeepsDurable(s, x); } EvictionStays(s, step);
    case Life(x) => LifeKeepsDurable(s, x);
  }

  // ---- Whole runs ----

  lemma {:induction false} RunKeepsDurable(s: State, steps: seq<Step>, t: State)
    requires Sharing(s) && DurableSoFar(s) && Run(s, steps, t, Calm)
    ensures Sharing(t) && DurableSoFar(t)
    decreases |steps|
  {
    hide Sharing, DurableSoFar, Enabled, Apply, Calm, Keyed;
    if steps != [] {
      CalmIsKeyed(s, steps[0]);
      StepKeepsSharing(s, steps[0]);
      StepKeepsDurable(s, steps[0]);
      RunKeepsDurable(Apply(s, steps[0]), steps[1..], t);
    }
  }

  /** A clean room with no write of its own outstanding closes over a row that has its document. */
  lemma SettledStepIsCalm(s: State, step: Step)
    requires Durable(s) && Settled(s, step)
    ensures Calm(s, step)
  {
    hide Tidy;
  }

  lemma StepKeepsHappened(s: State, step: Step)
    requires Enabled(s, step) && s.eviction.Happened()
    ensures Apply(s, step).eviction.Happened()
  {
    hide SessionEnabled, SessionApply, LoadEnabled, LoadApply, EditEnabled, EditApply, SaveEnabled, SaveApply;
    if step.Life? {
      hide Unload, Evict, Cancel, Unloadable;
    } else {
      EvictionStays(s, step);
    }
  }

  lemma {:induction false} HappenedStays(s: State, steps: seq<Step>, t: State, allowed: Assumption)
    requires Run(s, steps, t, allowed) && s.eviction.Happened()
    ensures t.eviction.Happened()
    decreases |steps|
  {
    hide Enabled, Apply;
    if steps != [] {
      StepKeepsHappened(s, steps[0]);
      HappenedStays(Apply(s, steps[0]), steps[1..], t, allowed);
    }
  }

  /** Up to eviction, a run whose closings are settled is calm. */
  lemma {:induction false} SettledRunsAreCalm(s: State, steps: seq<Step>, t: State)
    requires Sharing(s) && Durable(s) && Run(s, steps, t, Settled) && !t.eviction.Happened()
    ensures Run(s, steps, t, Calm)
    decreases |steps|
  {
    hide Sharing, Durable, Enabled, Apply, Calm, Keyed, Settled;
    if s.eviction.Happened() {
      HappenedStays(s, steps, t, Settled);
    } else if steps != [] {
      var u := Apply(s, steps[0]);
      SettledStepIsCalm(s, steps[0]);
      CalmIsKeyed(s, steps[0]);
      StepKeepsSharing(s, steps[0]);
      StepKeepsDurable(s, steps[0]);
      if u.eviction.Happened() {
        HappenedStays(u, steps[1..], t, Settled);
      }
      SettledRunsAreCalm(u, steps[1..], t);
    }
  }

  lemma {:induction false} SettledRunIsDurable(kind: Kind, steps: seq<Step>, t: State)
    requires Run(Start(kind), steps, t, Settled) && !t.eviction.Happened()
    ensures Run(Start(kind), steps, t, Calm) && Sharing(t) && Durable(t)
  {
    SettledRunsAreCalm(Start(kind), steps, t);
    hide Run, Calm, Settled;
    RunKeepsDurable(Start(kind), steps, t);
  }

  /** Every accepted edit is in the live document, or in the row and in every write that may still replace it. */
  ghost predicate Kept(s: State) {
    if s.svc.live.Some?
    then s.svc.live.value in s.svc.heap && s.hist.accepted <= s.svc.heap[s.svc.live.value].doc.ops
    else Carries(s.db, s.hist.accepted)
  }

  /**
   No accepted edit is lost: in every run up to eviction whose rooms close with
   none of their writes outstanding.
  */
  lemma {:induction false} AcceptedEditsAreKept(kind: Kind, steps: seq<Step>, t: State)
    requires Run(Start(kind), steps, t, Settled) && !t.eviction.Happened()
    ensures Kept(t)
  {
    hide Run, Settled, Calm;
    SettledRunIsDurable(kind, steps, t);
  }

  /** Calm closings are enough. */
  lemma {:induction false} CalmRunsKeepAcceptedEdits(kind: Kind, steps: seq<Step>, t: State)
    requires Run(Start(kind), steps, t, Calm) && !t.eviction.Happened()
    ensures Kept(t)
  {
    hide Run, Calm;
    RunKeepsDurable(Start(kind), steps, t);
  }

  /**
   A clean room with no write of its own outstanding is exactly what is stored,
   and stays so whatever else commits.
  */
  lemma {:induction false} CleanRoomIsStored(kind: Kind, steps: seq<Step>, t: State)
    requires Run(Start(kind), steps, t, Settled) && !t.eviction.Happened() && t.svc.live.Some?
    requires forall i | 0 <= i < |t.db.writes| :: t.db.writes[i].room != t.svc.live.value
    ensures t.svc.live.value in t.svc.heap && StoredWhenClean(t.svc.heap[t.svc.live.value], t.db)
  {
    hide Run, Settled, Calm;
    SettledRunIsDurable(kind, steps, t);
    CalmCleanRoomIsStored(t);
  }

  predicate StoredWhenClean(room: Room, db: Database) {
    room.dirtySince.None? ==> db.store.Some? && db.store.value.ops == room.doc.ops && Carries(db, room.doc.ops)
  }

  /** The same from calm runs on, whose states are all durable. */
  lemma CalmCleanRoomIsStored(t: State)
    requires Durable(t) && t.svc.live.Some?
    requires forall i | 0 <= i < |t.db.writes| :: t.db.writes[i].room != t.svc.live.value
    ensures t.svc.live.value in t.svc.heap && StoredWhenClean(t.svc.heap[t.svc.live.value], t.db)
  {
  }

  /**
   A failed save never leaves its room clean, so the next change or departure
   saves again; a change that came meanwhile keeps its own earlier mark.
  */
  lemma FailedSaveLeavesDirty(s: State, i: nat)
    requires SaveEnabled(s, SaveFail(i))
    ensures
      var before := s.svc.heap[s.db.writes[i].room];
      var after := SaveApply(s, SaveFail(i)).svc.heap[s.db.writes[i].room];
      && after.dirtySince == (if before.dirtySince.Some? then before.dirtySince else Some(s.now))
      && after.saveTimer == before.saveTimer && after.doc == before.doc && after.bytes == before.bytes
  {
  }

  // ---- Unload, then load again ----

  /** With no room live no timer closes one, so nothing more is asked of timers. */
  predicate StaysClosed(s: State, step: Step) {
    s.svc.live.None? && !s.eviction.Happened()
  }

  lemma ClosedIsCalm(s: State, step: Step)
    requires s.svc.live.None?
    ensures Calm(s, step) && Keyed(s, step)
  {
  }

  /** Nobody can start a project here any more. */
  predicate Begun(s: State) {
    s.kind.Code? || s.db.store.Some?
  }

  lemma {:induction false} RowRestsWhileClosed(s: State, steps: seq<Step>, t: State)
    requires Sharing(s) && Durable(s) && Begun(s) && s.svc.live.None? && !s.eviction.Happened()
    requires t.svc.live.None? && !t.eviction.Happened()
    requires Run(s, steps, t, StaysClosed)
    ensures t.hist.accepted == s.hist.accepted && Durable(t)
    decreases |steps|
  {
    hide Sharing, Enabled, Apply, Calm, Keyed, RoomHolds, RowHolds;
    if steps != [] {
      ClosedIsCalm(s, steps[0]);
      StepKeepsSharing(s, steps[0]);
      StepKeepsDurable(s, steps[0]);
      StepKeepsRow(s, steps[0]);
      var u := Apply(s, steps[0]);
      if steps[1..] != [] {
        RowRestsWhileClosed(u, steps[1..], t);
      }
    }
  }

  lemma SessionKeepsRow(s: State, step: SessionStep)
    requires s.svc.live.None? && SessionEnabled(s, step)
    ensures SessionApply(s, step).db.store == s.db.store && SessionApply(s, step).kind == s.kind
    ensures SessionApply(s, step).hist.accepted == s.hist.accepted
  {
    hide Resolved, InFlight, Drop, LastOut, Join, Cancel, Opens, Joins, StartLoad;
  }

  lemma LoadKeepsRow(s: State, step: LoadStep)
    requires s.svc.live.None? && LoadEnabled(s, step)
    ensures LoadApply(s, step).db.store == s.db.store && LoadApply(s, step).kind == s.kind
    ensures LoadApply(s, step).svc.live.None? ==> LoadApply(s, step).hist.accepted == s.hist.accepted
  {
    hide NewRoom, NewTrack, Restores, Outcome;
  }

  lemma EditKeepsRow(s: State, step: EditStep)
    requires s.svc.live.None? && EditEnabled(s, step)
    ensures EditApply(s, step).db.store == s.db.store && EditApply(s, step).kind == s.kind
    ensures EditApply(s, step).hist.accepted == s.hist.accepted
  {
    hide Classified, ExpirePresence;
  }

  /** While closed, the row may be rewritten with what it holds, and no edit is accepted. */
  lemma StepKeepsRow(s: State, step: Step)
    requires Begun(s) && s.svc.live.None? && !s.eviction.Happened() && Enabled(s, step)
    ensures Begun(Apply(s, step))
    ensures Apply(s, step).svc.live.None? ==> Apply(s, step).hist.accepted == s.hist.accepted
  {
    hide SessionEnabled, SessionApply, LoadEnabled, LoadApply, EditEnabled, EditApply;
    match step
    case Session(x) => SessionKeepsRow(s, x);
    case Loading(x) => LoadKeepsRow(s, x);
    case Change(x) => EditKeepsRow(s, x);
    case Saving(x) => hide InFlight, Without;
    case Life(x) => hide Unload, Evict, Cancel;
  }

  /** From any durable state whose room closes calmly. */
  lemma {:induction false} DurableReopening(s: State, timer: TimerId, steps: seq<Step>, t: State,
                                            l: LoadId, newRoom: RoomId, doc: Doc)
    requires Sharing(s) && Durable(s) && !s.eviction.Happened()
    requires LifeEnabled(s, UnloadTimerFires(timer)) && CalmUnload(s, timer) && Closes(s, timer)
    requires Run(AfterUnload(s, timer), steps, t, StaysClosed) && t.svc.live.None? && !t.eviction.Happened()
    requires LoadEnabled(t, LoadFinish(l, newRoom, doc)) && t.loads[l].stored.Some?
    ensures doc.ops == s.svc.heap[s.timers[timer].room].doc.ops
  {
    hide Run, OneRoom, OneLoad, RealResults, RealPhases, RealTimers, RealWrites, Tidy;
    var step := Life(UnloadTimerFires(timer));
    UnloadedRoomHolds(s, s.timers[timer].room);
    CalmIsKeyed(s, step);
    StepKeepsSharing(s, step);
    StepKeepsDurable(s, step);
    RowRestsWhileClosed(AfterUnload(s, timer), steps, t);
  }

  /**
   Closing and reopening gives the document back. After an unload timer closed
   the room, with none of its writes outstanding as at every closing before,
   whenever the document is next loaded, by whatever run gets there, the load
   hands over the very operations the closed room held.
  */
  lemma {:induction false} ReopeningRestoresTheDocument(kind: Kind, past: seq<Step>, s: State, timer: TimerId,
                                                        steps: seq<Step>, t: State,
                                                        l: LoadId, newRoom: RoomId, doc: Doc)
    requires Run(Start(kind), past, s, Settled) && !s.eviction.Happened()
    requires LifeEnabled(s, UnloadTimerFires(timer)) && SettledUnload(s, timer) && Closes(s, timer)
    requires Run(AfterUnload(s, timer), steps, t, StaysClosed) && t.svc.live.None? && !t.eviction.Happened()
    requires LoadEnabled(t, LoadFinish(l, newRoom, doc)) && t.loads[l].stored.Some?
    ensures doc.ops == s.svc.heap[s.timers[timer].room].doc.ops
  {
    hide Run, Sharing, Durable, LoadEnabled, AfterUnload, SettledUnload, CalmUnload;
    SettledRunIsDurable(kind, past, s);
    SettledStepIsCalm(s, Life(UnloadTimerFires(timer)));
    DurableReopening(s, timer, steps, t, l, newRoom, doc);
  }
}
