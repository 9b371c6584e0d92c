/**
 When an accepted edit can be lost. Closing a room hands its document over to
 the row; whether an edit can still vanish afterwards is decided there and
 then, by the row and the writes that may yet replace it. Nothing is assumed
 of the runs that follow but keyed timers: saves may fail or commit, rooms may
 open, close and be written again.
*/
module BoardLoss {
  import opened Prelude
  import opened BoardRoom
  import opened BoardMachine
  import opened BoardSharing
  import opened BoardDurability

  /** The edit is in no document anyone can reach, not in the row, and not on its way there. */
  predicate Lost(s: State, op: Op) {
    && op in s.hist.accepted && s.eviction.NotEvicted?
    && (s.svc.live.Some? ==> s.svc.live.value in s.svc.heap && op !in s.svc.heap[s.svc.live.value].doc.ops)
    && op !in Ops(s.db.store)
    && s.db.writes == []
  }

  ghost predicate CanBeLost(s: State, op: Op) {
    exists steps: seq<Step>, t: State :: Run(s, steps, t, Keyed) && Lost(t, op)
  }

  // ---- An edit held everywhere it matters is never lost ----

  /** The row, the writes that may replace it, the loads that read it and the live room all have the edit. */
  ghost predicate Anchored(s: State, op: Op) {
    && Carries(s.db, {op})
    && (forall l | l in s.loads && s.loads[l].Got? :: op in Ops(s.loads[l].stored))
    && (s.svc.live.Some? ==> s.svc.live.value in s.svc.heap && op in s.svc.heap[s.svc.live.value].doc.ops)
  }

  lemma IssueCarries(db: Database, id: RoomId, room: Room, w: WriteId, op: Op)
    requires Carries(db, {op}) && op in room.doc.ops
    ensures Carries(Issue(db, id, room, w), {op})
  {
  }

  lemma ArriveCarries(db: Database, id: RoomId, bytes: nat, op: Op)
    requires Carries(db, {op})
    ensures Carries(db.(writes := Arrive(db.writes, id, bytes)), {op})
  {
    hide Arrive;
  }

  lemma AnswerCarries(db: Database, i: nat, op: Op)
    requires Carries(db, {op}) && i < |db.writes|
    ensures Carries(db.(writes := Without(db.writes, i)), {op})
  {
    var rest := Without(db.writes, i);
    assert forall j | 0 <= j < |rest| :: rest[j] == db.writes[if j < i then j else j + 1];
  }

  lemma CommitCarries(db: Database, i: nat, op: Op)
    requires Carries(db, {op}) && Next(db.writes, i)
    ensures Carries(Committed(db, i), {op})
  {
    assert op in {op};
  }

  lemma SessionKeepsAnchored(s: State, step: SessionStep, op: Op)
    requires Anchored(s, op) && SessionEnabled(s, step)
    ensures Anchored(SessionApply(s, step), op)
  {
    hide Carries, InFlight, Joins, Owned, Issue, Encoded;
    match step
    case LeaveStart(k, leave, write) =>
      var at := Current(s.svc, k);
      if at.Some? {
        IssueCarries(s.db, at.value, Drop(s.svc.heap[at.value], k), write, op);
      }
    case _ =>
  }

  lemma LoadKeepsAnchored(s: State, step: LoadStep, op: Op)
    requires Anchored(s, op) && LoadEnabled(s, step)
    ensures Anchored(LoadApply(s, step), op)
  {
    hide NewTrack;
    assert op in {op};
  }

  lemma EditKeepsAnchored(s: State, step: EditStep, op: Op)
    requires Anchored(s, op) && EditEnabled(s, step)
    ensures Anchored(EditApply(s, step), op)
  {
    hide Carries, Arrive, Relay, Stamp, TooLarge, Owned, Classified, SaveDelay;
    match step
    case Edit(k, update, size) =>
      var at := Admits(s.svc, s.gate, k, update);
      if at.Some? {
        ArriveCarries(s.db, at.value, update.bytes, op);
      }
    case _ =>
  }

  /** Only the live room has a save timer, and it has the edit. */
  lemma SaveKeepsAnchored(s: State, step: SaveStep, op: Op)
    requires OneRoom(s.svc) && Anchored(s, op) && SaveEnabled(s, step)
    ensures Anchored(SaveApply(s, step), op)
  {
    hide Carries, InFlight, Issue, Encoded, Without, OneRoom;
    match step
    case SaveTimerFires(id, write) =>
      SavingRoomIsLive(s.svc, id);
      IssueCarries(s.db, id, s.svc.heap[id], write, op);
    case Commit(i) =>
      IndexOfNext(s.db.writes, i);
      CommitCarries(s.db, i, op);
    case SaveOk(i) => AnswerCarries(s.db, i, op);
    case SaveFail(i) => AnswerCarries(s.db, i, op);
  }

  lemma LifeKeepsAnchored(s: State, step: LifeStep, op: Op)
    requires Anchored(s, op) && LifeEnabled(s, step) && !s.eviction.Evicted?
    ensures Anchored(LifeApply(s, step), op)
  {
    assert op in {op};
  }

  lemma StepKeepsAnchored(s: State, step: Step, op: Op)
    requires Sharing(s) && Anchored(s, op) && Enabled(s, step) && !s.eviction.Evicted?
    ensures Anchored(Apply(s, step), op)
  {
    hide Anchored, OneRoom, OneLoad, RealResults, RealPhases, RealTimers, RealWrites, SessionEnabled, SessionApply,
         LoadEnabled, LoadApply, EditEnabled, EditApply, SaveEnabled, SaveApply, LifeEnabled, LifeApply;
    match step
    case Session(x) => SessionKeepsAnchored(s, x, op);
    case Loading(x) => LoadKeepsAnchored(s, x, op);
    case Change(x) => EditKeepsAnchored(s, x, op);
    case Saving(x) => SaveKeepsAnchored(s, x, op);
    case Life(x) => LifeKeepsAnchored(s, x, op);
  }

  /** Eviction, once begun, is never taken back. */
  lemma StepKeepsEvicting(s: State, step: Step)
    requires Enabled(s, step) && !s.eviction.NotEvicted?
    ensures !Apply(s, step).eviction.NotEvicted?
  {
    hide SessionEnabled, SessionApply, LoadEnabled, LoadApply, EditEnabled, EditApply, SaveEnabled, SaveApply;
    if step.Life? {
      hide Unload, Evict, Cancel, Unloadable;
    } else {
      EvictionStays(s, step);
    }
  }

  lemma {:induction false} RunKeepsAnchored(s: State, steps: seq<Step>, t: State, op: Op)
    requires Sharing(s) && Anchored(s, op) && Run(s, steps, t, Keyed)
    ensures t.eviction.NotEvicted? ==> s.eviction.NotEvicted? && Anchored(t, op)
    decreases |steps|
  {
    hide Sharing, Anchored, Enabled, Apply, Keyed;
    if steps != [] {
      var u := Apply(s, steps[0]);
      if s.eviction.NotEvicted? {
        StepKeepsSharing(s, steps[0]);
        StepKeepsAnchored(s, steps[0], op);
        RunKeepsAnchored(u, steps[1..], t, op);
      } else {
        StepKeepsEvicting(s, steps[0]);
        EvictingStays(u, steps[1..], t);
      }
    }
  }

  lemma {:induction false} EvictingStays(s: State, steps: seq<Step>, t: State)
    requires Run(s, steps, t, Keyed) && !s.eviction.NotEvicted?
    ensures !t.eviction.NotEvicted?
    decreases |steps|
  {
    hide Enabled, Apply, Keyed;
    if steps != [] {
      StepKeepsEvicting(s, steps[0]);
      EvictingStays(Apply(s, steps[0]), steps[1..], t);
    }
  }

  lemma AnchoredCannotBeLost(s: State, op: Op)
    requires Sharing(s) && Anchored(s, op)
    ensures !CanBeLost(s, op)
  {
    hide Sharing, Run;
    forall steps: seq<Step>, t: State | Run(s, steps, t, Keyed) ensures !Lost(t, op) {
      RunKeepsAnchored(s, steps, t, op);
      assert op in {op};
    }
  }

  // ---- Otherwise some run loses it ----

  /** A closed document whose writes can still be committed or refused. */
  ghost predicate Closed(s: State, op: Op) {
    && s.svc.live.None? && s.eviction.NotEvicted? && !s.db.deleted && op in s.hist.accepted
    && forall i | 0 <= i < |s.db.writes| :: s.db.writes[i].room in s.svc.heap && s.db.writes[i].room in s.hist.tracks
  }

  lemma {:induction false} FirstStep(s: State, step: Step, steps: seq<Step>, t: State)
    requires Enabled(s, step) && Keyed(s, step) && Run(Apply(s, step), steps, t, Keyed)
    ensures Run(s, [step] + steps, t, Keyed)
  {
    assert ([step] + steps)[1..] == steps;
  }

  /** With the edit not in the row, it is enough that the outstanding writes are refused. */
  lemma {:induction false} RefusedWritesLoseIt(s: State, op: Op) returns (steps: seq<Step>, t: State)
    requires Closed(s, op) && op !in Ops(s.db.store)
    ensures Run(s, steps, t, Keyed) && Lost(t, op)
    decreases |s.db.writes|
  {
    if s.db.writes == [] {
      steps, t := [], s;
    } else {
      var refuse := Saving(SaveFail(0));
      var rest: seq<Step>;
      rest, t := RefusedWritesLoseIt(Apply(s, refuse), op);
      FirstStep(s, refuse, rest, t);
      steps := [refuse] + rest;
    }
  }

  /** Otherwise a write that lacks the edit commits, once those before it have. */
  lemma {:induction false} CommittedWriteLosesIt(s: State, op: Op, done: nat, i: nat)
    returns (steps: seq<Step>, t: State)
    requires Closed(s, op) && done <= i < |s.db.writes|
    requires forall j | 0 <= j < done :: s.db.writes[j].committed
    requires !s.db.writes[i].committed && op !in s.db.writes[i].doc.ops
    ensures Run(s, steps, t, Keyed) && Lost(t, op)
    decreases i - done
  {
    if done < i && s.db.writes[done].committed {
      steps, t := CommittedWriteLosesIt(s, op, done + 1, i);
    } else {
      var commit := Saving(Commit(done));
      var rest: seq<Step>;
      if done == i {
        rest, t := RefusedWritesLoseIt(Apply(s, commit), op);
      } else {
        rest, t := CommittedWriteLosesIt(Apply(s, commit), op, done + 1, i);
      }
      FirstStep(s, commit, rest, t);
      steps := [commit] + rest;
    }
  }

  lemma UncarriedCanBeLost(s: State, op: Op)
    requires Closed(s, op) && !Carries(s.db, {op})
    ensures CanBeLost(s, op)
  {
    hide Run, Lost;
    var steps: seq<Step>, t: State;
    if op !in Ops(s.db.store) {
      steps, t := RefusedWritesLoseIt(s, op);
    } else {
      var i :| 0 <= i < |s.db.writes| && !s.db.writes[i].committed && op !in s.db.writes[i].doc.ops;
      steps, t := CommittedWriteLosesIt(s, op, 0, i);
    }
  }

  // ---- What every run records ----

  /** Every operation in a document was accepted, and rows are deleted only after an eviction. */
  ghost predicate Recorded(s: State) {
    && (forall id | id in s.svc.heap :: s.svc.heap[id].doc.ops <= s.hist.accepted)
    && (s.db.deleted ==> !s.eviction.NotEvicted?)
  }

  lemma RoomKeepsRecorded(s: State, t: State, id: RoomId, room: Room)
    requires Recorded(s) && t.svc.heap == s.svc.heap[id := room] && t.db.deleted == s.db.deleted
    requires t.eviction == s.eviction && s.hist.accepted <= t.hist.accepted && room.doc.ops <= t.hist.accepted
    ensures Recorded(t)
  {
  }

  lemma SessionKeepsRecorded(s: State, step: SessionStep)
    requires Recorded(s) && SessionEnabled(s, step)
    ensures Recorded(SessionApply(s, step))
  {
    hide InFlight, Joins, Owned;
  }

  lemma EditKeepsRecorded(s: State, step: EditStep)
    requires Recorded(s) && EditEnabled(s, step)
    ensures Recorded(EditApply(s, step))
  {
    hide Recorded, Arrive, Relay, Stamp, TooLarge, Owned, Classified, SaveDelay;
    match step
    case Edit(k, update, size) =>
      var at := Admits(s.svc, s.gate, k, update);
      if at.Some? {
        RoomIsRecorded(s, at.value);
        RoomKeepsRecorded(s, EditApply(s, step), at.value, Accept(s.svc.heap[at.value], update, size, s.now));
      }
    case Presence(k, _, change) =>
      var at := Current(s.svc, k);
      if at.Some? {
        RoomIsRecorded(s, at.value);
        var room := ChangePresence(s.svc.heap[at.value], k, change);
        RoomKeepsRecorded(s, s.(svc := With(s.svc, at.value, room)), at.value, room);
      }
    case PresenceTimeout(id, ids) =>
      RoomIsRecorded(s, id);
      RoomKeepsRecorded(s, EditApply(s, step), id, ExpirePresence(s.svc.heap[id], ids));
  }

  lemma RoomIsRecorded(s: State, id: RoomId)
    requires Recorded(s) && id in s.svc.heap
    ensures s.svc.heap[id].doc.ops <= s.hist.accepted
  {
  }

  lemma LoadKeepsRecorded(s: State, step: LoadStep)
    requires Recorded(s) && LoadEnabled(s, step)
    ensures Recorded(LoadApply(s, step))
  {
    hide NewTrack;
  }

  lemma SaveKeepsRecorded(s: State, step: SaveStep)
    requires Recorded(s) && SaveEnabled(s, step)
    ensures Recorded(SaveApply(s, step))
  {
    hide InFlight, Without, Next;
    match step
    case Commit(i) => IndexOfNext(s.db.writes, i);
    case _ =>
  }

  lemma LifeKeepsRecorded(s: State, step: LifeStep)
    requires Recorded(s) && LifeEnabled(s, step)
    ensures Recorded(LifeApply(s, step))
  {
    hide Cancel;
  }

  lemma StepKeepsRecorded(s: State, step: Step)
    requires Recorded(s) && Enabled(s, step)
    ensures Recorded(Apply(s, step))
  {
    hide Recorded, SessionEnabled, SessionApply, LoadEnabled, LoadApply, EditEnabled, EditApply, SaveEnabled, SaveApply,
         LifeEnabled, LifeApply;
    match step
    case Session(x) => SessionKeepsRecorded(s, x);
    case Loading(x) => LoadKeepsRecorded(s, x);
    case Change(x) => EditKeepsRecorded(s, x);
    case Saving(x) => SaveKeepsRecorded(s, x);
    case Life(x) => LifeKeepsRecorded(s, x);
  }

  lemma {:induction false} RunIsRecorded(s: State, steps: seq<Step>, t: State, allowed: Assumption)
    requires Recorded(s) && Run(s, steps, t, allowed)
    ensures Recorded(t)
    decreases |steps|
  {
    hide Recorded, Enabled, Apply;
    if steps != [] {
      StepKeepsRecorded(s, steps[0]);
      RunIsRecorded(Apply(s, steps[0]), steps[1..], t, allowed);
    }
  }

  // ---- Main results ----

  /** The moment a room closes: `s` is the state before its timer fires. */
  ghost predicate Closing(s: State, timer: TimerId) {
    LifeEnabled(s, UnloadTimerFires(timer)) && Closes(s, timer) && s.eviction.NotEvicted?
  }

  lemma ClosedAfterClosing(s: State, timer: TimerId, op: Op)
    requires Sharing(s) && Recorded(s) && Closing(s, timer) && op in s.svc.heap[s.svc.live.value].doc.ops
    ensures Closed(AfterUnload(s, timer), op)
    ensures Carries(s.db, {op}) ==> Anchored(AfterUnload(s, timer), op)
  {
    hide Cancel, OneRoom, RealResults, RealPhases, RealTimers, Carries;
    RoomIsRecorded(s, s.svc.live.value);
  }

  /**
   Whatever came before, an edit in the closing document can be lost later if
   and only if the row, or a write that may yet replace it, does not have it.
  */
  lemma {:induction false} ClosingLosesExactly(kind: Kind, past: seq<Step>, s: State, timer: TimerId, op: Op)
    requires Run(Start(kind), past, s, Keyed) && Closing(s, timer)
    requires op in s.svc.heap[s.svc.live.value].doc.ops
    ensures CanBeLost(AfterUnload(s, timer), op) <==> !Carries(s.db, {op})
  {
    hide Run, Sharing, Recorded, Carries, Closed, Anchored, CanBeLost, Keyed;
    StartIsRecorded(kind);
    RunKeepsSharing(Start(kind), past, s);
    RunIsRecorded(Start(kind), past, s, Keyed);
    ClosedAfterClosing(s, timer, op);
    var closed := AfterUnload(s, timer);
    if Carries(s.db, {op}) {
      ClosingIsKeyed(s, timer);
      StepKeepsSharing(s, Life(UnloadTimerFires(timer)));
      AnchoredCannotBeLost(closed, op);
    } else {
      UncarriedCanBeLost(closed, op);
    }
  }

  lemma ClosingIsKeyed(s: State, timer: TimerId)
    requires Closes(s, timer)
    ensures Keyed(s, Life(UnloadTimerFires(timer)))
  {
  }

  lemma StartIsRecorded(kind: Kind)
    ensures Recorded(Start(kind)) && Sharing(Start(kind)) && Durable(Start(kind))
  {
  }

  /**
   When every closing so far was calm, the row alone decides: an accepted edit
   can be lost after this closing if and only if the row does not have it.
  */
  lemma {:induction false} RowDecidesLoss(kind: Kind, past: seq<Step>, s: State, timer: TimerId, op: Op)
    requires Run(Start(kind), past, s, Calm) && Closing(s, timer) && op in s.hist.accepted
    ensures CanBeLost(AfterUnload(s, timer), op) <==> op !in Ops(s.db.store)
  {
    hide Run, Sharing, Tidy, Carries, CanBeLost, Calm, Keyed, OwnLast, Written;
    CalmRunIsKeyed(Start(kind), past, s);
    StartIsRecorded(kind);
    RunKeepsDurable(Start(kind), past, s);
    ClosingLosesExactly(kind, past, s, timer, op);
    RowDecides(s.db, s.hist.accepted, {op});
  }

  /** So calm closings are exactly those after which no accepted edit can ever be lost. */
  lemma {:induction false} ClosingIsSafeExactly(kind: Kind, past: seq<Step>, s: State, timer: TimerId)
    requires Run(Start(kind), past, s, Calm) && Closing(s, timer)
    ensures CalmUnload(s, timer) <==> forall op | op in s.hist.accepted :: !CanBeLost(AfterUnload(s, timer), op)
  {
    hide Run, Sharing, Tidy, Carries, CanBeLost, Calm, Keyed, OwnLast, Written;
    StartIsRecorded(kind);
    RunKeepsDurable(Start(kind), past, s);
    forall op | op in s.hist.accepted ensures CanBeLost(AfterUnload(s, timer), op) <==> op !in Ops(s.db.store) {
      RowDecidesLoss(kind, past, s, timer, op);
    }
  }

  lemma {:induction false} CalmRunIsKeyed(s: State, steps: seq<Step>, t: State)
    requires Run(s, steps, t, Calm)
    ensures Run(s, steps, t, Keyed)
    decreases |steps|
  {
    hide Enabled, Apply, Calm, Keyed;
    if steps != [] {
      CalmIsKeyed(s, steps[0]);
      CalmRunIsKeyed(Apply(s, steps[0]), steps[1..], t);
    }
  }
}
