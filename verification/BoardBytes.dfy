/**
 The size cap. `room.bytes` is meant to bound the encoded size, but finishing
 a save sets it to the size that was encoded and forgets what arrived since.
 In every run the encoded size is bounded by `bytes` plus what arrived during
 the last finished save. The cap itself is kept while every save finishes over
 a document no larger than the one it encoded, and a save that does not opens
 the way past it.
*/
module BoardBytes {
  import opened Prelude
  import opened BoardRoom
  import opened BoardMachine

  /** The cap, or more if the document was already larger when it was loaded. */
  function Ceiling(track: Track): nat {
    Max(MAX_DOC_BYTES, track.loadedSize)
  }

  /** Each save finishes while the document is no larger than what it encoded. */
  predicate CaughtUp(s: State, step: Step) {
    if step.Saving? && step.save.SaveOk? then CaughtUpSave(s, step.save.index) else true
  }

  predicate CaughtUpSave(s: State, i: nat) {
    i < |s.db.writes| && s.db.writes[i].room in s.svc.heap ==>
      s.svc.heap[s.db.writes[i].room].doc.size <= s.db.writes[i].doc.size
  }

  /** With `tight`, what holds of runs in which every save catches up. */
  ghost predicate Counted(room: Room, track: Track, tight: bool) {
    && room.doc.size <= room.bytes + track.debt
    && (tight ==> room.doc.size <= room.bytes <= Ceiling(track))
  }

  ghost predicate AllCounted(heap: map<RoomId, Room>, tracks: map<RoomId, Track>, tight: bool) {
    forall id | id in heap :: id in tracks && Counted(heap[id], tracks[id], tight)
  }

  /** Finishing this write would leave its room counted. */
  ghost predicate WriteCounts(heap: map<RoomId, Room>, tracks: map<RoomId, Track>, w: Write, tight: bool) {
    && w.room in heap && w.room in tracks
    && heap[w.room].doc.size <= w.doc.size + w.arrived
    && (tight ==> w.doc.size <= Ceiling(tracks[w.room]))
  }

  ghost predicate WritesCount(heap: map<RoomId, Room>, tracks: map<RoomId, Track>, writes: seq<Write>, tight: bool) {
    forall i | 0 <= i < |writes| :: WriteCounts(heap, tracks, writes[i], tight)
  }

  ghost predicate Accounts(heap: map<RoomId, Room>, tracks: map<RoomId, Track>, writes: seq<Write>, tight: bool) {
    AllCounted(heap, tracks, tight) && WritesCount(heap, tracks, writes, tight)
  }

  ghost predicate Accounted(s: State, tight: bool) {
    Accounts(s.svc.heap, s.hist.tracks, s.db.writes, tight)
  }

  // ---- One room at a time ----

  /** A change that keeps the document, the count and the debt. */
  lemma QuietKeepsAccounted(s: State, id: RoomId, room: Room, tight: bool)
    requires Accounted(s, tight) && id in s.svc.heap
    requires room.doc.size <= s.svc.heap[id].doc.size && room.bytes == s.svc.heap[id].bytes
    ensures Accounts(s.svc.heap[id := room], s.hist.tracks, s.db.writes, tight)
  {
    forall i | 0 <= i < |s.db.writes|
      ensures WriteCounts(s.svc.heap[id := room], s.hist.tracks, s.db.writes[i], tight)
    {
      assert WriteCounts(s.svc.heap, s.hist.tracks, s.db.writes[i], tight);
    }
  }

  /** One answered or repeated write less. */
  lemma FewerWritesCount(heap: map<RoomId, Room>, tracks: map<RoomId, Track>, writes: seq<Write>, i: nat, tight: bool)
    requires WritesCount(heap, tracks, writes, tight) && i < |writes|
    ensures WritesCount(heap, tracks, Without(writes, i), tight)
  {
    forall j | 0 <= j < |writes| - 1 ensures WriteCounts(heap, tracks, Without(writes, i)[j], tight) {
      assert WriteCounts(heap, tracks, writes[if j < i then j else j + 1], tight);
    }
  }

  lemma NewRoomAccounts(s: State, id: RoomId, doc: Doc, seeded: bool, tight: bool)
    requires Accounted(s, tight) && id !in s.svc.heap
    ensures Accounts(s.svc.heap[id := NewRoom(doc, seeded, s.now)], s.hist.tracks[id := NewTrack(doc, seeded, s.now)],
                     s.db.writes, tight)
  {
    hide SaveDelay, Since;
    var heap := s.svc.heap[id := NewRoom(doc, seeded, s.now)];
    var tracks := s.hist.tracks[id := NewTrack(doc, seeded, s.now)];
    forall i | 0 <= i < |s.db.writes| ensures WriteCounts(heap, tracks, s.db.writes[i], tight) {
      assert WriteCounts(s.svc.heap, s.hist.tracks, s.db.writes[i], tight);
    }
  }

  lemma EditAccounts(s: State, id: RoomId, update: Update, size: nat, tight: bool)
    requires Accounted(s, tight) && id in s.svc.heap && size <= s.svc.heap[id].doc.size + update.bytes
    requires !TooLarge(s.svc.heap[id], update)
    ensures
      var room := s.svc.heap[id];
      Accounts(s.svc.heap[id := Accept(room, update, size, s.now)],
               s.hist.tracks[id := Stamp(s.hist.tracks[id], update.ops - room.doc.ops, s.now)],
               Arrive(s.db.writes, id, update.bytes), tight)
  {
    hide SaveDelay, Since;
    var heap := s.svc.heap[id := Accept(s.svc.heap[id], update, size, s.now)];
    var tracks := s.hist.tracks[id := Stamp(s.hist.tracks[id], update.ops - s.svc.heap[id].doc.ops, s.now)];
    forall i | 0 <= i < |s.db.writes|
      ensures WriteCounts(heap, tracks, Arrive(s.db.writes, id, update.bytes)[i], tight)
    {
      assert WriteCounts(s.svc.heap, s.hist.tracks, s.db.writes[i], tight);
    }
  }

  lemma SaveStartAccounts(s: State, id: RoomId, room: Room, w: WriteId, tight: bool)
    requires Accounted(s, tight) && id in s.svc.heap
    requires room.doc == s.svc.heap[id].doc && room.bytes == s.svc.heap[id].bytes
    ensures Accounts(s.svc.heap[id := SaveStart(room)], Encoded(s.hist, id, room).tracks,
                     Issue(s.db, id, room, w).writes, tight)
  {
    var heap := s.svc.heap[id := SaveStart(room)];
    var tracks := Encoded(s.hist, id, room).tracks;
    assert Counted(s.svc.heap[id], s.hist.tracks[id], tight);
    forall i | 0 <= i < |s.db.writes| ensures WriteCounts(heap, tracks, s.db.writes[i], tight) {
      assert WriteCounts(s.svc.heap, s.hist.tracks, s.db.writes[i], tight);
    }
  }

  lemma SaveOkAccounts(s: State, i: nat, tight: bool)
    requires Accounted(s, tight) && SaveEnabled(s, SaveOk(i)) && (tight ==> CaughtUpSave(s, i))
    ensures
      var w := s.db.writes[i];
      Accounts(s.svc.heap[w.room := Saved(s.svc.heap[w.room], w.doc.size)],
               s.hist.tracks[w.room := s.hist.tracks[w.room].(debt := w.arrived)], Without(s.db.writes, i), tight)
  {
    var w := s.db.writes[i];
    assert WriteCounts(s.svc.heap, s.hist.tracks, w, tight);
    var heap := s.svc.heap[w.room := Saved(s.svc.heap[w.room], w.doc.size)];
    var tracks := s.hist.tracks[w.room := s.hist.tracks[w.room].(debt := w.arrived)];
    forall j | 0 <= j < |s.db.writes| ensures WriteCounts(heap, tracks, s.db.writes[j], tight) {
      assert WriteCounts(s.svc.heap, s.hist.tracks, s.db.writes[j], tight);
    }
    FewerWritesCount(heap, tracks, s.db.writes, i, tight);
  }

  lemma SaveFailAccounts(s: State, i: nat, tight: bool)
    requires Accounted(s, tight) && SaveEnabled(s, SaveFail(i))
    ensures
      var w := s.db.writes[i];
      Accounts(s.svc.heap[w.room := SaveFailed(s.svc.heap[w.room], s.now)], s.hist.tracks,
               Without(s.db.writes, i), tight)
  {
    var w := s.db.writes[i];
    QuietKeepsAccounted(s, w.room, SaveFailed(s.svc.heap[w.room], s.now), tight);
    FewerWritesCount(s.svc.heap[w.room := SaveFailed(s.svc.heap[w.room], s.now)], s.hist.tracks, s.db.writes, i, tight);
  }

  lemma CommitAccounts(s: State, i: nat, tight: bool)
    requires Accounted(s, tight) && i < |s.db.writes|
    ensures Accounted(AfterCommit(s, i), tight)
  {
    var t := AfterCommit(s, i);
    forall j | 0 <= j < |s.db.writes| ensures WriteCounts(t.svc.heap, t.hist.tracks, t.db.writes[j], tight) {
      assert WriteCounts(s.svc.heap, s.hist.tracks, s.db.writes[j], tight);
    }
  }

  // ---- One group of steps at a time ----

  lemma SessionKeepsAccounted(s: State, step: SessionStep, tight: bool)
    requires Accounted(s, tight) && SessionEnabled(s, step)
    ensures Accounted(SessionApply(s, step), tight)
  {
    hide Accounts, SaveStart, Issue, Encoded, InFlight, Owned;
    match step
    case JoinFinish(k) =>
      var result := Resolved(s.svc, s.loads, s.gate.phases[k].on).value;
      if result.Loaded? {
        QuietKeepsAccounted(s, result.room, Join(s.svc.heap[result.room], k), tight);
      }
    case LeaveStart(k, leave, write) =>
      var at := Current(s.svc, k);
      if at.Some? {
        var room := Drop(s.svc.heap[at.value], k);
        QuietKeepsAccounted(s, at.value, room, tight);
        SaveStartAccounts(s, at.value, room, write, tight);
      }
    case LeaveFinish(leave, timer) =>
      var id := s.leaves[leave].room;
      QuietKeepsAccounted(s, id, s.svc.heap[id].(unloadTimer := Some(timer)), tight);
    case _ =>
  }

  lemma LoadKeepsAccounted(s: State, step: LoadStep, tight: bool)
    requires Accounted(s, tight) && LoadEnabled(s, step)
    ensures Accounted(LoadApply(s, step), tight)
  {
    hide Accounts, NewRoom, NewTrack;
    match step
    case LoadFinish(l, id, doc) => NewRoomAccounts(s, id, doc, s.loads[l].stored.None?, tight);
    case _ =>
  }

  lemma ChangeKeepsAccounted(s: State, step: EditStep, tight: bool)
    requires Accounted(s, tight) && EditEnabled(s, step)
    ensures Accounted(EditApply(s, step), tight)
  {
    hide Accounts, Accept, Stamp, Relay, TooLarge, Owned, Classified;
    match step
    case Edit(k, update, size) =>
      var at := Admits(s.svc, s.gate, k, update);
      if at.Some? {
        EditAccounts(s, at.value, update, size, tight);
      }
    case Presence(k, _, change) =>
      var at := Current(s.svc, k);
      if at.Some? {
        QuietKeepsAccounted(s, at.value, ChangePresence(s.svc.heap[at.value], k, change), tight);
      }
    case PresenceTimeout(id, ids) => QuietKeepsAccounted(s, id, ExpirePresence(s.svc.heap[id], ids), tight);
  }

  lemma SavingKeepsAccounted(s: State, step: SaveStep, tight: bool)
    requires Accounted(s, tight) && SaveEnabled(s, step) && (tight ==> CaughtUp(s, Saving(step)))
    ensures Accounted(SaveApply(s, step), tight)
  {
    hide Accounts, SaveStart, Issue, Encoded, InFlight, Next, AfterCommit, Without;
    match step
    case SaveTimerFires(id, write) => SaveStartAccounts(s, id, s.svc.heap[id], write, tight);
    case Commit(i) =>
      IndexOfNext(s.db.writes, i);
      CommitAccounts(s, i, tight);
    case SaveOk(i) => SaveOkAccounts(s, i, tight);
    case SaveFail(i) => SaveFailAccounts(s, i, tight);
  }

  lemma LifeKeepsAccounted(s: State, step: LifeStep, tight: bool)
    requires Accounted(s, tight) && LifeEnabled(s, step)
    ensures Accounted(LifeApply(s, step), tight)
  {
    hide Accounts, Unloadable;
    match step
    case UnloadTimerFires(timer) =>
      var id := s.timers[timer].room;
      QuietKeepsAccounted(s, id, Dispose(s.svc.heap[id]), tight);
    case EvictFinish =>
      if s.svc.live.Some? && s.svc.live.value in s.svc.heap {
        QuietKeepsAccounted(s, s.svc.live.value, Dispose(s.svc.heap[s.svc.live.value]), tight);
      }
    case _ =>
  }

  lemma StepKeepsAccounted(s: State, step: Step, tight: bool)
    requires Accounted(s, tight) && Enabled(s, step) && (tight ==> CaughtUp(s, step))
    ensures Accounted(Apply(s, step), tight)
  {
    hide Accounted, SessionEnabled, SessionApply, LoadEnabled, LoadApply, EditEnabled, EditApply, SaveEnabled,
         SaveApply,
         LifeEnabled, LifeApply;
    match step
    case Session(x) => SessionKeepsAccounted(s, x, tight);
    case Loading(x) => LoadKeepsAccounted(s, x, tight);
    case Change(x) => ChangeKeepsAccounted(s, x, tight);
    case Saving(x) => SavingKeepsAccounted(s, x, tight);
    case Life(x) => LifeKeepsAccounted(s, x, tight);
  }

  lemma {:induction false} RunKeepsAccounted(s: State, steps: seq<Step>, t: State, allowed: Assumption, tight: bool)
    requires Accounted(s, tight) && Run(s, steps, t, allowed)
    requires tight ==> forall u, step | allowed(u, step) :: CaughtUp(u, step)
    ensures Accounted(t, tight)
    decreases |steps|
  {
    hide Accounted, Enabled, Apply, CaughtUp;
    if steps != [] {
      StepKeepsAccounted(s, steps[0], tight);
      RunKeepsAccounted(Apply(s, steps[0]), steps[1..], t, allowed, tight);
    }
  }

  /** In every run, a room's encoded size never exceeds `bytes` plus what arrived during its last finished save. */
  lemma {:induction false} SizeIsBytesPlusArrivals(kind: Kind, steps: seq<Step>, t: State, allowed: Assumption,
                                                   id: RoomId)
    requires Run(Start(kind), steps, t, allowed) && id in t.svc.heap
    ensures id in t.hist.tracks && t.svc.heap[id].doc.size <= t.svc.heap[id].bytes + t.hist.tracks[id].debt
  {
    hide Run;
    RunKeepsAccounted(Start(kind), steps, t, allowed, false);
    assert Counted(t.svc.heap[id], t.hist.tracks[id], false);
  }

  /**
   While every save catches up `bytes` bounds the encoded size, and is itself
   bounded by the cap or the size at load.
  */
  lemma {:induction false} CaughtUpRunsKeepTheCap(kind: Kind, steps: seq<Step>, t: State, id: RoomId)
    requires Run(Start(kind), steps, t, CaughtUp) && id in t.svc.heap
    ensures id in t.hist.tracks
    ensures t.svc.heap[id].doc.size <= t.svc.heap[id].bytes <= Max(MAX_DOC_BYTES, t.hist.tracks[id].loadedSize)
  {
    hide Run, CaughtUp;
    RunKeepsAccounted(Start(kind), steps, t, CaughtUp, true);
    assert Counted(t.svc.heap[id], t.hist.tracks[id], true);
  }

  // ---- Saves catch up when nothing arrives meanwhile ----

  /** No edit arrives while a save of its room is outstanding. */
  predicate Quiet(s: State, step: Step) {
    if step.Change? && step.edit.Edit? then QuietEdit(s, step.edit.socket, step.edit.update) else true
  }

  predicate QuietEdit(s: State, k: SocketId, update: Update) {
    var at := Admits(s.svc, s.gate, k, update);
    at.Some? ==> forall i | 0 <= i < |s.db.writes| :: s.db.writes[i].room != at.value
  }

  predicate NothingArrived(writes: seq<Write>) {
    forall i | 0 <= i < |writes| :: writes[i].arrived == 0
  }

  lemma EditKeepsNothingArrived(s: State, edit: EditStep)
    requires NothingArrived(s.db.writes) && Enabled(s, Change(edit)) && Quiet(s, Change(edit))
    ensures NothingArrived(Apply(s, Change(edit)).db.writes)
  {
    hide Accept, ChangePresence, Relay, Stamp, Encoded, TooLarge, Classified, Drop;
  }

  lemma SaveKeepsNothingArrived(s: State, save: SaveStep)
    requires NothingArrived(s.db.writes) && Enabled(s, Saving(save))
    ensures NothingArrived(Apply(s, Saving(save)).db.writes)
  {
    hide Encoded, Stamp, Arrive;
    if save.Commit? {
      IndexOfNext(s.db.writes, save.index);
    }
  }

  lemma StepKeepsNothingArrived(s: State, step: Step)
    requires NothingArrived(s.db.writes) && Enabled(s, step) && Quiet(s, step)
    ensures NothingArrived(Apply(s, step).db.writes)
  {
    hide Current, Resolved, Request, Install, NewRoom, NewTrack, Restores, InFlight, Classified, Accept, ChangePresence,
         Relay, Stamp, Drop, LastOut, Join, Cancel, Encoded, TooLarge, Opens, Joins, StartLoad, Arrive;
    match step
    case Change(edit) =>
      hide Apply, Enabled, Quiet;
      EditKeepsNothingArrived(s, edit);
    case Saving(save) =>
      hide Apply, Enabled, Quiet;
      SaveKeepsNothingArrived(s, save);
    case _ =>
  }

  lemma QuietSaveCatchesUp(s: State, i: nat)
    requires Accounted(s, false) && NothingArrived(s.db.writes)
    ensures CaughtUpSave(s, i)
  {
    if i < |s.db.writes| {
      assert WriteCounts(s.svc.heap, s.hist.tracks, s.db.writes[i], false);
    }
  }

  lemma {:induction false} QuietRunsCatchUp(s: State, steps: seq<Step>, t: State)
    requires Accounted(s, false) && NothingArrived(s.db.writes) && Run(s, steps, t, Quiet)
    ensures Run(s, steps, t, CaughtUp)
    decreases |steps|
  {
    hide Accounted, NothingArrived, Enabled, Apply, Quiet, CaughtUpSave;
    if steps != [] {
      StepKeepsAccounted(s, steps[0], false);
      StepKeepsNothingArrived(s, steps[0]);
      if steps[0].Saving? && steps[0].save.SaveOk? {
        QuietSaveCatchesUp(s, steps[0].save.index);
      }
      QuietRunsCatchUp(Apply(s, steps[0]), steps[1..], t);
    }
  }

  /** When nothing arrives during a save, the cap is kept. */
  lemma {:induction false} QuietRunsKeepTheCap(kind: Kind, steps: seq<Step>, t: State, id: RoomId)
    requires Run(Start(kind), steps, t, Quiet) && id in t.svc.heap
    ensures id in t.hist.tracks
    ensures t.svc.heap[id].doc.size <= t.svc.heap[id].bytes <= Max(MAX_DOC_BYTES, t.hist.tracks[id].loadedSize)
  {
    hide Run, Quiet, CaughtUp;
    QuietRunsCatchUp(Start(kind), steps, t);
    CaughtUpRunsKeepTheCap(kind, steps, t, id);
  }

  // ---- Any other save opens the way past the cap ----

  predicate OnlyEdits(s: State, step: Step) {
    step.Change? && step.edit.Edit?
  }

  /** Some run of edits, each let in by the cap, takes the document past it. */
  ghost predicate CanPassTheCap(s: State, id: RoomId) {
    exists steps: seq<Step>, t: State :: Run(s, steps, t, OnlyEdits) && PastTheCap(t, id)
  }

  predicate PastTheCap(s: State, id: RoomId) {
    id in s.svc.heap && s.svc.heap[id].doc.size > MAX_DOC_BYTES
  }

  predicate Bounded(room: Room) {
    room.doc.size <= room.bytes <= MAX_DOC_BYTES
  }

  lemma EditKeepsBounded(s: State, step: Step, id: RoomId)
    requires id in s.svc.heap && Bounded(s.svc.heap[id]) && Enabled(s, step) && OnlyEdits(s, step)
    ensures id in Apply(s, step).svc.heap && Bounded(Apply(s, step).svc.heap[id])
  {
    hide Relay, Arrive, Stamp, SaveDelay;
  }

  lemma {:induction false} EditsKeepBounded(s: State, steps: seq<Step>, t: State, id: RoomId)
    requires id in s.svc.heap && Bounded(s.svc.heap[id]) && Run(s, steps, t, OnlyEdits)
    ensures !PastTheCap(t, id)
    decreases |steps|
  {
    hide Enabled, Apply, OnlyEdits;
    if steps != [] {
      EditKeepsBounded(s, steps[0], id);
      EditsKeepBounded(Apply(s, steps[0]), steps[1..], t, id);
    }
  }

  /** Where socket `k` edits room `id`. */
  predicate Editing(s: State, k: SocketId, id: RoomId) {
    && id in s.svc.heap && id in s.hist.tracks && s.svc.live == Some(id)
    && k in s.svc.heap[id].sockets && k in s.gate.registered
  }

  /** One edit with news that grows the document by all its bytes. */
  lemma GrowingEdit(s: State, k: SocketId, id: RoomId, bytes: nat) returns (step: Step)
    requires Editing(s, k, id) && bytes <= MAX_UPDATE_BYTES && s.svc.heap[id].bytes + bytes <= MAX_DOC_BYTES
    ensures Enabled(s, step) && OnlyEdits(s, step) && Editing(Apply(s, step), k, id)
    ensures
      var room := s.svc.heap[id];
      var after := Apply(s, step).svc.heap[id];
      after.doc.size == room.doc.size + bytes && after.bytes == room.bytes + bytes
  {
    hide Relay, Arrive, Stamp, SaveDelay;
    var op := FreshNumber(s.svc.heap[id].doc.ops);
    step := Change(Edit(k, Update({op}, bytes), s.svc.heap[id].doc.size + bytes));
    assert op in {op} && Admits(s.svc, s.gate, k, Update({op}, bytes)) == Some(id);
  }

  /** Edits of at most BOARD_MAX_UPDATE_BYTES, until `bytes` is at the cap. */
  lemma {:induction false} EditsFillTheCap(s: State, k: SocketId, id: RoomId) returns (steps: seq<Step>, t: State)
    requires Editing(s, k, id) && s.svc.heap[id].bytes <= MAX_DOC_BYTES
    ensures Run(s, steps, t, OnlyEdits) && id in t.svc.heap
    ensures t.svc.heap[id].doc.size == s.svc.heap[id].doc.size + (MAX_DOC_BYTES - s.svc.heap[id].bytes)
    decreases MAX_DOC_BYTES - s.svc.heap[id].bytes
  {
    hide Enabled, Apply, OnlyEdits;
    var room := MAX_DOC_BYTES - s.svc.heap[id].bytes;
    if room == 0 {
      steps, t := [], s;
    } else {
      var step := GrowingEdit(s, k, id, Min(room, MAX_UPDATE_BYTES));
      var rest: seq<Step>;
      rest, t := EditsFillTheCap(Apply(s, step), k, id);
      steps := [step] + rest;
      assert steps[1..] == rest;
    }
  }

  /** Whatever arrived during a save is room for as much again past the cap, once the save is answered. */
  lemma ArrivalsDuringASaveEscapeTheCap(s: State, i: nat, k: SocketId)
    requires SaveEnabled(s, SaveOk(i)) && Editing(s, k, s.db.writes[i].room)
    requires s.db.writes[i].doc.size <= MAX_DOC_BYTES
    requires s.svc.heap[s.db.writes[i].room].doc.size > s.db.writes[i].doc.size
    ensures CanPassTheCap(SaveApply(s, SaveOk(i)), s.db.writes[i].room)
  {
    hide Run, Without;
    var id := s.db.writes[i].room;
    var steps, t := EditsFillTheCap(SaveApply(s, SaveOk(i)), k, id);
    assert PastTheCap(t, id);
  }

  /**
   The exact condition. When a save is answered, the document and what was
   encoded being within the cap and some socket able to edit, edits let in by
   the cap can take the document past it if and only if the document is larger
   than what was encoded.
  */
  lemma CapCanBePassedExactly(s: State, i: nat, k: SocketId)
    requires SaveEnabled(s, SaveOk(i)) && Editing(s, k, s.db.writes[i].room)
    requires s.db.writes[i].doc.size <= MAX_DOC_BYTES
    requires s.svc.heap[s.db.writes[i].room].doc.size <= MAX_DOC_BYTES
    ensures CanPassTheCap(SaveApply(s, SaveOk(i)), s.db.writes[i].room) <==>
            s.svc.heap[s.db.writes[i].room].doc.size > s.db.writes[i].doc.size
  {
    hide Run, Without, PastTheCap;
    var id := s.db.writes[i].room;
    var saved := SaveApply(s, SaveOk(i));
    if s.svc.heap[id].doc.size > s.db.writes[i].doc.size {
      ArrivalsDuringASaveEscapeTheCap(s, i, k);
    } else {
      forall steps: seq<Step>, t: State | Run(saved, steps, t, OnlyEdits) ensures !PastTheCap(t, id) {
        EditsKeepBounded(saved, steps, t, id);
      }
    }
  }

  // ---- A run that does so ----

  /** Socket "a" alone in room 0 of a project. */
  predicate Scene(s: State, doc: Doc, bytes: nat) {
    && s.kind.Sandbox? && s.svc.live == Some(0) && s.svc.loading.None? && !s.db.deleted
    && 0 in s.svc.heap && 0 in s.hist.tracks && "a" in s.gate.registered
    && s.svc.heap[0].sockets == {"a"} && s.svc.heap[0].doc == doc && s.svc.heap[0].bytes == bytes
    && s.hist.tracks[0].loadedSize < MAX_DOC_BYTES
  }

  /** A project two bytes short of the cap. */
  lemma ProjectIsRequested() returns (t: State)
    ensures Reaches(Start(Sandbox), t, Ordinary)
    ensures t.kind.Sandbox? && t.svc == Service(map[], None, Some(0))
    ensures t.loads == map[0 := Reading] && t.hist.tracks == map[]
    ensures t.db == Database([], Some(Doc({0}, MAX_DOC_BYTES - 2)), false)
    ensures t.gate.phases == map["a" := Opening(OnLoad(0))] && "a" in t.hist.known
  {
    hide Reaches;
    ReachesItself(Start(Sandbox), Ordinary);
    t := Start(Sandbox);
    t := Then(Start(Sandbox), t, Life(StartProject(Doc({0}, MAX_DOC_BYTES - 2))), Ordinary);
    t := Then(Start(Sandbox), t, Session(Subscribe("a")), Ordinary);
    t := Then(Start(Sandbox), t, Session(RequestRoom("a", 0)), Ordinary);
  }

  lemma ProjectOpens() returns (t: State)
    ensures Reaches(Start(Sandbox), t, Ordinary) && Scene(t, Doc({0}, MAX_DOC_BYTES - 2), MAX_DOC_BYTES - 2)
    ensures t.svc.heap[0].dirtySince.None? && t.db.writes == []
  {
    hide Reaches;
    t := ProjectIsRequested();
    t := Then(Start(Sandbox), t, Loading(LoadRead(0)), Ordinary);
    t := Then(Start(Sandbox), t, Loading(LoadFinish(0, 0, Doc({0}, MAX_DOC_BYTES - 2))), Ordinary);
    t := Then(Start(Sandbox), t, Loading(LoadSettle(0)), Ordinary);
    t := Then(Start(Sandbox), t, Session(JoinFinish("a")), Ordinary);
  }

  lemma FirstEditIsBeingSaved() returns (t: State)
    ensures Reaches(Start(Sandbox), t, Ordinary) && Scene(t, Doc({0, 1}, MAX_DOC_BYTES - 1), MAX_DOC_BYTES - 1)
    ensures |t.db.writes| == 1 && !t.db.writes[0].committed && t.db.writes[0].room == 0
    ensures t.db.writes[0].doc.size == MAX_DOC_BYTES - 1
  {
    hide Reaches, Relay;
    t := ProjectOpens();
    t := Then(Start(Sandbox), t, Change(Edit("a", Update({1}, 1), MAX_DOC_BYTES - 1)), Ordinary);
    t := Then(Start(Sandbox), t, Life(Tick(SAVE_DEBOUNCE_MS)), Ordinary);
    t := Then(Start(Sandbox), t, Saving(SaveTimerFires(0, 0)), Ordinary);
  }

  /** A byte arrives during the save, and the save's end makes room for one more. */
  lemma SecondEditIsForgotten() returns (t: State)
    ensures Reaches(Start(Sandbox), t, Ordinary) && Scene(t, Doc({0, 1, 2}, MAX_DOC_BYTES), MAX_DOC_BYTES - 1)
  {
    hide Reaches, Relay;
    t := FirstEditIsBeingSaved();
    t := Then(Start(Sandbox), t, Change(Edit("a", Update({2}, 1), MAX_DOC_BYTES)), Ordinary);
    t := Then(Start(Sandbox), t, Saving(Commit(0)), Ordinary);
    t := Then(Start(Sandbox), t, Saving(SaveOk(0)), Ordinary);
  }

  /** Loaded under the cap, edited only with updates that were let in, and now past the cap. */
  lemma TheCapIsExceeded() returns (t: State)
    ensures Reaches(Start(Sandbox), t, Ordinary) && 0 in t.svc.heap && 0 in t.hist.tracks
    ensures t.hist.tracks[0].loadedSize < MAX_DOC_BYTES < t.svc.heap[0].doc.size
    ensures t.svc.heap[0].bytes < t.svc.heap[0].doc.size
  {
    hide Reaches, Relay;
    t := SecondEditIsForgotten();
    t := Then(Start(Sandbox), t, Change(Edit("a", Update({3}, 1), MAX_DOC_BYTES + 1)), Ordinary);
  }
}
