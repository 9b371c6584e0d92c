/**
 Bounded save delay: when timers fire when due and no save fails, an accepted
 update waits at most BOARD_SAVE_MAX_WAIT_MS to be encoded into a save, and at
 most BOARD_SAVE_DEBOUNCE_MS after the last change, however updates are spaced,
 whether or not another save is in flight, and whatever unloads or evictions do.
*/
module BoardTiming {
  import opened Prelude
  import opened BoardRoom
  import opened BoardMachine
  import opened BoardRoomEvents
  import opened BoardSharing
  import opened BoardDurability

  /** A dirty room has a timer, due soon after its first unsaved change and soon after its last. */
  ghost predicate OnTime(room: Room, track: Track, now: nat) {
    && track.lastChange <= now
    && (room.dirtySince.Some? ==>
          && room.dirtySince.value <= track.lastChange
          && room.saveTimer.Some?
          && now <= room.saveTimer.value
          && room.saveTimer.value <= room.dirtySince.value + SAVE_MAX_WAIT_MS
          && room.saveTimer.value <= track.lastChange + SAVE_DEBOUNCE_MS)
    && (forall op | op in track.unsaved ::
          room.dirtySince.Some? && room.dirtySince.value <= track.unsaved[op] <= track.lastChange)
  }

  ghost predicate AllOnTime(heap: map<RoomId, Room>, tracks: map<RoomId, Track>, now: nat) {
    forall id | id in heap && !heap[id].disposed :: id in tracks && OnTime(heap[id], tracks[id], now)
  }

  ghost predicate Timely(s: State) {
    AllOnTime(s.svc.heap, s.hist.tracks, s.now)
  }

  /** Time does not pass a due save timer, and no save fails. */
  predicate Prompt(s: State, step: Step) {
    match step
    case Life(Tick(elapsed)) =>
      forall id | id in s.svc.heap && !s.svc.heap[id].disposed && s.svc.heap[id].saveTimer.Some? ::
        s.now + elapsed <= s.svc.heap[id].saveTimer.value
    case Saving(SaveFail(_)) => false
    case _ => true
  }

  // ---- One room at a time ----

  /** Scheduling again never pushes the save past the deadline of the first unsaved change. */
  lemma ScheduledOnTime(room: Room, track: Track, delta: set<Op>, now: nat)
    requires OnTime(room, track, now) && delta != {}
    ensures OnTime(ScheduleSave(room, now), Stamp(track, delta, now), now)
  {
  }

  lemma EventKeepsOnTime(room: Room, track: Track, event: RoomEvent, now: nat)
    requires (room.disposed || OnTime(room, track, now)) && !event.SaveBroke?
    ensures
      var after := RoomAfter(room, event, now);
      after.disposed || OnTime(after, TrackAfter(room, track, event, now), now)
  {
    if event.Edited? && !room.disposed {
      SomethingNew(event.update.ops, room.doc.ops);
      var merged := room.(bytes := room.bytes + event.update.bytes, doc := Merge(room.doc, event.update, event.size));
      assert OnTime(merged, track, now);
    }
  }

  lemma NewRoomOnTime(doc: Doc, seeded: bool, now: nat)
    ensures OnTime(NewRoom(doc, seeded, now), NewTrack(doc, seeded, now), now)
  {
  }

  lemma StepKeepsTimely(s: State, step: Step)
    requires Tracked(s) && Timely(s) && Enabled(s, step) && Prompt(s, step)
    ensures Tracked(Apply(s, step)) && Timely(Apply(s, step))
  {
    hide RoomAfter, TrackAfter, OnTime, NewRoom, NewTrack;
    var t := Apply(s, step);
    assert Tracked(t) by { StepMakes(s, step, 0); }
    if step.Life? && step.life.Tick? {
      TickKeepsTimely(s, step.life.elapsed);
    } else {
      assert t.now == s.now by { TimeStands(s, step); }
      forall id | id in t.svc.heap && !t.svc.heap[id].disposed
        ensures OnTime(t.svc.heap[id], t.hist.tracks[id], t.now)
      {
        if id in s.svc.heap {
          hide Apply, Enabled, EventOf;
          StepFollows(s, step, id);
          NoSaveBreaks(s, step, id);
          EventKeepsOnTime(s.svc.heap[id], s.hist.tracks[id], EventOf(s, step, id), s.now);
        } else {
          hide Apply, Enabled;
          StepMakes(s, step, id);
          var doc, seeded :| t.svc.heap[id] == NewRoom(doc, seeded, s.now)
                          && t.hist.tracks[id] == NewTrack(doc, seeded, s.now);
          NewRoomOnTime(doc, seeded, s.now);
        }
      }
    }
  }

  lemma NoSaveBreaks(s: State, step: Step, id: RoomId)
    requires Enabled(s, step) && Prompt(s, step)
    ensures !EventOf(s, step, id).SaveBroke?
  {
  }

  lemma TickKeepsTimely(s: State, elapsed: nat)
    requires Timely(s) && Prompt(s, Life(Tick(elapsed)))
    ensures Timely(LifeApply(s, Tick(elapsed)))
  {
  }

  lemma {:induction false} RunKeepsTimely(s: State, steps: seq<Step>, t: State)
    requires Tracked(s) && Timely(s) && Run(s, steps, t, Prompt)
    ensures Timely(t)
    decreases |steps|
  {
    hide Timely, Enabled, Apply, Prompt;
    if steps != [] {
      StepKeepsTimely(s, steps[0]);
      RunKeepsTimely(Apply(s, steps[0]), steps[1..], t);
    }
  }

  /**
   Bounded delay. In every prompt run, at every moment and in every room not
   disposed of, an operation not yet encoded was accepted at most the maximum
   wait ago, the last change is at most the debounce ago, and a save is due
   before either runs out.
  */
  lemma {:induction false} EveryEditIsSavedInTime(kind: Kind, steps: seq<Step>, t: State, id: RoomId, op: Op)
    requires Run(Start(kind), steps, t, Prompt) && id in t.svc.heap && !t.svc.heap[id].disposed
    ensures id in t.hist.tracks
    ensures
      var room := t.svc.heap[id];
      var track := t.hist.tracks[id];
      op in track.unsaved ==>
        && t.now <= track.unsaved[op] + SAVE_MAX_WAIT_MS
        && t.now <= track.lastChange + SAVE_DEBOUNCE_MS
        && room.saveTimer.Some?
        && room.saveTimer.value <= Min(track.unsaved[op] + SAVE_MAX_WAIT_MS, track.lastChange + SAVE_DEBOUNCE_MS)
  {
    hide Run, Prompt;
    RunKeepsTimely(Start(kind), steps, t);
    assert OnTime(t.svc.heap[id], t.hist.tracks[id], t.now);
  }

  // ---- A save waits for a pause ----

  /** A save is due a debounce after the last change, or when the longest wait is over if that is sooner. */
  predicate DueAfterPause(room: Room, track: Track) {
    room.saveTimer.Some? ==>
      && room.dirtySince.Some?
      && room.saveTimer.value ==
         Max(track.lastChange, Min(track.lastChange + SAVE_DEBOUNCE_MS, room.dirtySince.value + SAVE_MAX_WAIT_MS))
  }

  /**
   News is due a debounce from now, or a longest wait from the first change not
   yet saved, whichever comes first, but not in the past.
  */
  lemma NewsIsDueAfterAPause(s: State, k: SocketId, update: Update, size: nat)
    requires EditEnabled(s, Edit(k, update, size)) && Admits(s.svc, s.gate, k, update).Some?
    requires !(update.ops <= s.svc.heap[s.svc.live.value].doc.ops)
    ensures
      var before := s.svc.heap[s.svc.live.value];
      var first := if before.dirtySince.Some? then before.dirtySince.value else s.now;
      var t := EditApply(s, Edit(k, update, size));
      var room := t.svc.heap[s.svc.live.value];
      && room.dirtySince == Some(first)
      && room.saveTimer == Some(Max(s.now, Min(s.now + SAVE_DEBOUNCE_MS, first + SAVE_MAX_WAIT_MS)))
      && t.hist.tracks[s.svc.live.value].lastChange == s.now
  {
    hide Relay, Arrive, TooLarge;
    SomethingNew(update.ops, s.svc.heap[s.svc.live.value].doc.ops);
  }

  lemma PauseLasts()
    ensures Lasting(DueAfterPause, AnyEvent)
  {
    forall room, track, event, now | DueAfterPause(room, track)
      ensures DueAfterPause(RoomAfter(room, event, now), TrackAfter(room, track, event, now))
    {
      if event.Edited? {
        SomethingNew(event.update.ops, room.doc.ops);
      }
    }
  }

  lemma SomethingNew(ops: set<Op>, known: set<Op>)
    ensures ops <= known <==> ops - known == {}
  {
    if ops - known == {} {
      forall op | op in ops ensures op in known {
        assert op !in ops - known;
      }
    }
  }

  /**
   In every run at all, a save timer fires a debounce after the last change, or
   because the longest wait has run out since the room was first unsaved.
  */
  lemma {:induction false} SavesWaitForAPause(kind: Kind, steps: seq<Step>, t: State, allowed: Assumption,
                                              id: RoomId, w: WriteId)
    requires Run(Start(kind), steps, t, allowed) && SaveEnabled(t, SaveTimerFires(id, w))
    ensures
      var room := t.svc.heap[id];
      && room.dirtySince.Some?
      && (t.hist.tracks[id].lastChange + SAVE_DEBOUNCE_MS <= t.now
          || room.dirtySince.value + SAVE_MAX_WAIT_MS <= t.now)
  {
    hide Run, Lasting;
    PauseLasts();
    RunKeepsEverywhere(Start(kind), steps, t, allowed, DueAfterPause, AnyEvent);
    assert DueAfterPause(t.svc.heap[id], t.hist.tracks[id]);
  }

  // ---- Waiting begins with the edit and ends with a write that has it ----

  /** Whatever is waiting is in its room's document. */
  predicate WaitsInside(room: Room, track: Track) {
    track.unsaved.Keys <= room.doc.ops
  }

  /** Each operation a room accepts for the first time starts to wait at that moment. */
  lemma NewsStartsWaiting(s: State, k: SocketId, update: Update, size: nat, op: Op)
    requires EditEnabled(s, Edit(k, update, size)) && Admits(s.svc, s.gate, k, update).Some?
    requires op in update.ops && op !in s.svc.heap[s.svc.live.value].doc.ops
    ensures
      var track := EditApply(s, Edit(k, update, size)).hist.tracks[s.svc.live.value];
      op in track.unsaved && track.unsaved[op] == s.now
  {
    hide Relay, Arrive, TooLarge, SaveDelay;
    assert op in update.ops - s.svc.heap[s.svc.live.value].doc.ops;
  }

  lemma WaitingLasts()
    ensures Lasting(WaitsInside, AnyEvent)
  {
    hide SaveDelay;
    forall room, track, event, now | WaitsInside(room, track)
      ensures WaitsInside(RoomAfter(room, event, now), TrackAfter(room, track, event, now))
    {
    }
  }

  /** The last write issued is this room's, and holds the operation. */
  predicate IssuedWith(db: Database, id: RoomId, op: Op) {
    && db.writes != []
    && var w := db.writes[|db.writes| - 1];
    && w.room == id && !w.committed && op in w.doc.ops
  }

  /** Only a save that starts ends a wait, and it takes the whole document along. */
  lemma SavingIssues(s: State, step: Step, id: RoomId, op: Op)
    requires Enabled(s, step) && id in s.svc.heap && id in s.hist.tracks
    requires op in s.hist.tracks[id].unsaved && op in s.svc.heap[id].doc.ops
    requires op !in TrackAfter(s.svc.heap[id], s.hist.tracks[id], EventOf(s, step, id), s.now).unsaved
    ensures IssuedWith(Apply(s, step).db, id, op)
  {
    hide InFlight, Joins, Accept, Relay, Arrive, TooLarge, Classified, Without, Next, Cancel, Unload, Evict, Restores;
  }

  /** In every run at all, a step that ends an operation's wait issues a write of its room that holds it. */
  lemma {:induction false} WaitingEndsInAWrite(kind: Kind, steps: seq<Step>, s: State, allowed: Assumption, step: Step,
                                               id: RoomId, op: Op)
    requires Run(Start(kind), steps, s, allowed) && Enabled(s, step)
    requires id in s.svc.heap && id in s.hist.tracks && op in s.hist.tracks[id].unsaved
    ensures
      var t := Apply(s, step);
      id in t.hist.tracks && (op !in t.hist.tracks[id].unsaved ==> IssuedWith(t.db, id, op))
  {
    hide Run, Lasting, IssuedWith, Enabled, Apply, EventOf, RoomAfter, TrackAfter;
    WaitingLasts();
    RunKeepsEverywhere(Start(kind), steps, s, allowed, WaitsInside, AnyEvent);
    assert WaitsInside(s.svc.heap[id], s.hist.tracks[id]);
    StepFollows(s, step, id);
    if op !in Apply(s, step).hist.tracks[id].unsaved {
      SavingIssues(s, step, id, op);
    }
  }

  // ---- What is not waiting has been encoded ----

  /** Everything in the live document is waiting to be encoded, or is in the last write issued, or in the row. */
  ghost predicate Backed(room: Room, track: Track, db: Database) {
    room.doc.ops <= track.unsaved.Keys + Ops(Settles(db))
  }

  ghost predicate LiveBacked(s: State) {
    s.svc.live.Some? && s.svc.live.value in s.svc.heap && s.svc.live.value in s.hist.tracks ==>
      Backed(s.svc.heap[s.svc.live.value], s.hist.tracks[s.svc.live.value], s.db)
  }

  lemma AcceptedBacked(room: Room, track: Track, db: Database, id: RoomId, update: Update, size: nat, now: nat)
    requires Backed(room, track, db)
    ensures Backed(Accept(room, update, size, now), Stamp(track, update.ops - room.doc.ops, now),
                   db.(writes := Arrive(db.writes, id, update.bytes)))
  {
    var delta := update.ops - room.doc.ops;
    assert Since(delta, now).Keys == delta;
    assert Accept(room, update, size, now).doc.ops == room.doc.ops + delta;
    assert Ops(Settles(db.(writes := Arrive(db.writes, id, update.bytes)))) == Ops(Settles(db));
  }

  lemma LoadedBacked(doc: Doc, stored: Option<Doc>, db: Database, now: nat)
    requires Restores(stored, doc) && (stored.Some? ==> doc.ops <= Ops(Settles(db)))
    ensures Backed(NewRoom(doc, stored.None?, now), NewTrack(doc, stored.None?, now), db)
  {
    if stored.None? {
      assert Since(doc.ops, now).Keys == doc.ops;
    }
  }

  /** Encoding issues a write of the whole document. */
  lemma SaveStartBacked(room: Room, track: Track, db: Database, id: RoomId, w: WriteId)
    requires Backed(room, track, db)
    ensures Backed(SaveStart(room), if room.dirtySince.Some? then track.(unsaved := map[]) else track,
                   Issue(db, id, room, w))
  {
  }

  lemma EncodedTrack(hist: History, id: RoomId, room: Room)
    requires id in hist.tracks
    ensures Encoded(hist, id, room).tracks ==
            hist.tracks[id := if room.dirtySince.Some? then hist.tracks[id].(unsaved := map[]) else hist.tracks[id]]
  {
  }

  lemma CommitSettles(db: Database, i: nat)
    requires InOrder(db.writes) && Next(db.writes, i)
    ensures Settles(Committed(db, i)) == Settles(db)
  {
  }

  lemma AnswerSettles(db: Database, i: nat)
    requires InOrder(db.writes) && i < |db.writes| && db.writes[i].committed
    ensures Settles(db.(writes := Without(db.writes, i))) == Settles(db)
  {
  }

  lemma SessionKeepsBacked(s: State, step: SessionStep)
    requires s.hist.tracks.Keys == s.svc.heap.Keys && LiveBacked(s) && SessionEnabled(s, step)
    ensures LiveBacked(SessionApply(s, step))
  {
    hide SaveStart, Issue, Encoded, InFlight, Owned, Settles;
    match step
    case LeaveStart(k, leave, write) =>
      hide Backed;
      var at := Current(s.svc, k);
      if at.Some? {
        var room := Drop(s.svc.heap[at.value], k);
        DropBacked(s.svc.heap[at.value], k, s.hist.tracks[at.value], s.db);
        SaveStartBacked(room, s.hist.tracks[at.value], s.db, at.value, write);
        EncodedTrack(s.hist, at.value, room);
      }
    case _ =>
  }

  lemma DropBacked(room: Room, k: SocketId, track: Track, db: Database)
    requires Backed(room, track, db)
    ensures Backed(Drop(room, k), track, db)
  {
  }

  /** With no room live, whatever is still to commit has everything. */
  lemma ClosedSettles(db: Database, accepted: set<Op>)
    requires Carries(db, accepted)
    ensures accepted <= Ops(Settles(db))
  {
  }

  lemma LoadKeepsBacked(s: State, step: LoadStep)
    requires OneLoad(s.svc, s.loads) && Durable(s) && LiveBacked(s) && LoadEnabled(s, step)
    ensures LiveBacked(LoadApply(s, step))
  {
    hide Backed, NewRoom, NewTrack, RoomHolds;
    match step
    case LoadFinish(l, id, doc) =>
      hide Settles, Tidy;
      ClosedSettles(s.db, s.hist.accepted);
      LoadedBacked(doc, s.loads[l].stored, s.db, s.now);
    case _ =>
  }

  lemma ChangeKeepsBacked(s: State, step: EditStep)
    requires LiveBacked(s) && EditEnabled(s, step)
    ensures LiveBacked(EditApply(s, step))
  {
    hide Accept, Stamp, Relay, TooLarge, Owned, Classified, Settles, Arrive;
    match step
    case Edit(k, update, size) =>
      hide Backed;
      var at := Admits(s.svc, s.gate, k, update);
      if at.Some? {
        AcceptedBacked(s.svc.heap[at.value], s.hist.tracks[at.value], s.db, at.value, update, size, s.now);
      }
    case _ =>
  }

  lemma SavingKeepsBacked(s: State, step: SaveStep)
    requires OneRoom(s.svc) && Durable(s) && s.hist.tracks.Keys == s.svc.heap.Keys && LiveBacked(s)
    requires SaveEnabled(s, step) && !step.SaveFail?
    ensures LiveBacked(SaveApply(s, step))
  {
    hide SaveStart, Issue, Encoded, InFlight, Settles, Next, Without, OneRoom, Growing, OnlyAccepted;
    match step
    case SaveTimerFires(id, write) =>
      hide Backed;
      SavingRoomIsLive(s.svc, id);
      SaveStartBacked(s.svc.heap[id], s.hist.tracks[id], s.db, id, write);
      EncodedTrack(s.hist, id, s.svc.heap[id]);
    case Commit(i) =>
      IndexOfNext(s.db.writes, i);
      CommitSettles(s.db, i);
    case SaveOk(i) => AnswerSettles(s.db, i);
  }

  lemma LifeKeepsBacked(s: State, step: LifeStep)
    requires Durable(s) && !s.eviction.Happened() && LiveBacked(s) && LifeEnabled(s, step)
    ensures LiveBacked(LifeApply(s, step))
  {
    hide Unloadable;
    match step
    case StartProject(doc) => StartedProjectHolds(s, doc);
    case _ =>
  }

  lemma StepKeepsBacked(s: State, step: Step)
    requires Sharing(s) && Durable(s) && !s.eviction.Happened() && LiveBacked(s)
    requires Enabled(s, step) && Prompt(s, step)
    ensures LiveBacked(Apply(s, step))
  {
    hide OneRoom, OneLoad, RealResults, RealPhases, RealTimers, RealWrites, LiveBacked, Durable, SessionEnabled,
         SessionApply, LoadEnabled, LoadApply, EditEnabled, EditApply, SaveEnabled, SaveApply, LifeEnabled, LifeApply;
    match step
    case Session(x) => SessionKeepsBacked(s, x);
    case Loading(x) => LoadKeepsBacked(s, x);
    case Change(x) => ChangeKeepsBacked(s, x);
    case Saving(x) => SavingKeepsBacked(s, x);
    case Life(x) => LifeKeepsBacked(s, x);
  }

  // ---- Whole runs ----

  predicate CalmAndPrompt(s: State, step: Step) {
    Calm(s, step) && Prompt(s, step) && !s.eviction.Happened()
  }

  lemma {:induction false} RunKeepsBacked(s: State, steps: seq<Step>, t: State)
    requires Sharing(s) && DurableSoFar(s) && LiveBacked(s) && Run(s, steps, t, CalmAndPrompt)
    ensures (t.eviction.Happened() || LiveBacked(t)) && Sharing(t)
    decreases |steps|
  {
    hide Sharing, Durable, LiveBacked, Enabled, Apply, Calm, Keyed, Prompt;
    if steps != [] {
      CalmIsKeyed(s, steps[0]);
      StepKeepsSharing(s, steps[0]);
      StepKeepsDurable(s, steps[0]);
      StepKeepsBacked(s, steps[0]);
      RunKeepsBacked(Apply(s, steps[0]), steps[1..], t);
    }
  }

  predicate SettledAndPrompt(s: State, step: Step) {
    Settled(s, step) && Prompt(s, step) && !s.eviction.Happened()
  }

  lemma {:induction false} SettledPromptRunsAreCalm(s: State, steps: seq<Step>, t: State)
    requires Sharing(s) && DurableSoFar(s) && Run(s, steps, t, SettledAndPrompt)
    ensures Run(s, steps, t, CalmAndPrompt)
    decreases |steps|
  {
    hide Sharing, Durable, Enabled, Apply, Calm, Keyed, Settled, Prompt;
    if steps != [] {
      SettledStepIsCalm(s, steps[0]);
      CalmIsKeyed(s, steps[0]);
      StepKeepsSharing(s, steps[0]);
      StepKeepsDurable(s, steps[0]);
      SettledPromptRunsAreCalm(Apply(s, steps[0]), steps[1..], t);
    }
  }

  /** What no longer waits in the live document is in the last write issued, or in the row. */
  ghost predicate OnItsWay(s: State, op: Op) {
    s.svc.live.Some? ==>
      && s.svc.live.value in s.svc.heap && s.svc.live.value in s.hist.tracks
      && (op in s.svc.heap[s.svc.live.value].doc.ops && op !in s.hist.tracks[s.svc.live.value].unsaved ==>
            op in Ops(Settles(s.db)))
  }

  /** When rooms also close with none of their writes outstanding. */
  lemma {:induction false} WhatIsNotWaitingIsOnItsWay(kind: Kind, steps: seq<Step>, t: State, op: Op)
    requires Run(Start(kind), steps, t, SettledAndPrompt) && !t.eviction.Happened()
    ensures OnItsWay(t, op)
  {
    hide Run, SettledAndPrompt, CalmAndPrompt, Settles;
    SettledPromptRunsAreCalm(Start(kind), steps, t);
    CalmRunsHaveItOnItsWay(kind, steps, t, op);
  }

  /** Calm closings are enough. */
  lemma {:induction false} CalmRunsHaveItOnItsWay(kind: Kind, steps: seq<Step>, t: State, op: Op)
    requires Run(Start(kind), steps, t, CalmAndPrompt) && !t.eviction.Happened()
    ensures OnItsWay(t, op)
  {
    hide Run, CalmAndPrompt, Settles;
    RunKeepsBacked(Start(kind), steps, t);
  }
}
