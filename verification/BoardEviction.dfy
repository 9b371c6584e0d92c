/**
 Eviction is final. The expiry sweep closes both documents of a board, one
 after the other, waiting for a load in progress before each. Once it has
 begun and no further join is let in, nothing brings a room back or starts a
 save: no timer, no suspended leave, no load already running, no suspended join.
*/
module BoardEviction {
  import opened Prelude
  import opened BoardRoom
  import opened BoardMachine
  import opened BoardSharing

  /** How far `evict` has got. */
  datatype Stage = InUse | EvictingCode | EvictingSandbox | Gone

  datatype Board = Board(code: State, sandbox: State, stage: Stage)

  datatype BoardStep =
    | OnCode(step: Step)
    | OnSandbox(step: Step)
    | TimePasses(elapsed: nat)
    | EvictBegins
    // One stretch: the code room goes, and the sandbox's load, if any, is awaited.
    | CodeGone
    | SandboxGone
    | RowsDeleted

  const FreshBoard := Board(Start(Code), Start(Sandbox), InUse)

  /** Steps a document takes on its own; the others below belong to the board. */
  predicate Own(step: Step) {
    !step.Life? || step.life.UnloadTimerFires? || step.life.StartProject?
  }

  predicate CanHappen(b: Board, step: BoardStep) {
    match step
    case OnCode(x) => Own(x) && Enabled(b.code, x)
    case OnSandbox(x) => Own(x) && Enabled(b.sandbox, x)
    case TimePasses(_) => true
    case EvictBegins => b.stage.InUse? && LifeEnabled(b.code, EvictStart)
    case CodeGone => b.stage.EvictingCode? && LifeEnabled(b.code, EvictFinish) && LifeEnabled(b.sandbox, EvictStart)
    case SandboxGone => b.stage.EvictingSandbox? && LifeEnabled(b.sandbox, EvictFinish)
    case RowsDeleted => b.stage.Gone? && LifeEnabled(b.code, DeleteBoard) && LifeEnabled(b.sandbox, DeleteBoard)
  }

  function Take(b: Board, step: BoardStep): Board
    requires CanHappen(b, step)
  {
    match step
    case OnCode(x) => b.(code := Apply(b.code, x))
    case OnSandbox(x) => b.(sandbox := Apply(b.sandbox, x))
    case TimePasses(elapsed) =>
      b.(code := LifeApply(b.code, Tick(elapsed)), sandbox := LifeApply(b.sandbox, Tick(elapsed)))
    case EvictBegins => b.(code := LifeApply(b.code, EvictStart), stage := EvictingCode)
    case CodeGone =>
      b.(code := LifeApply(b.code, EvictFinish), sandbox := LifeApply(b.sandbox, EvictStart), stage := EvictingSandbox)
    case SandboxGone =>
      b.(sandbox := LifeApply(b.sandbox, EvictFinish), stage := Gone)
    case RowsDeleted =>
      b.(code := LifeApply(b.code, DeleteBoard), sandbox := LifeApply(b.sandbox, DeleteBoard))
  }

  /**
   Once eviction has begun the board has expired, so `requireMember` lets
   nobody ask for a room any more; unload timers are keyed.
  */
  predicate Refusing(b: Board, step: BoardStep) {
    match step
    case OnCode(x) => Keyed(b.code, x) && (Asks(x) ==> b.stage.InUse?)
    case OnSandbox(x) => Keyed(b.sandbox, x) && (Asks(x) ==> b.stage.InUse?)
    case _ => true
  }

  predicate Asks(step: Step) {
    step.Session? && step.session.RequestRoom?
  }

  ghost predicate BoardRun(b: Board, steps: seq<BoardStep>, c: Board)
    decreases |steps|
  {
    if steps == [] then b == c
    else CanHappen(b, steps[0]) && Refusing(b, steps[0]) && BoardRun(Take(b, steps[0]), steps[1..], c)
  }

  // ---- One document ----

  /** While `evict` waits, the only load there can be is the one it waits for. */
  ghost predicate AwaitsTheLoad(s: State) {
    s.eviction.Awaiting? && (s.svc.loading.Some? ==> s.svc.loading == s.eviction.load)
  }

  /** Nothing is live, nothing is loading, and no room can ever save again. */
  ghost predicate Sealed(s: State) {
    && s.eviction.Evicted?
    && s.svc.live.None? && s.svc.loading.None?
    && (forall l | l in s.loads :: s.loads[l].Done?)
    && (forall id | id in s.svc.heap :: s.svc.heap[id].saveTimer.None?)
  }

  lemma FinishSeals(s: State)
    requires Sharing(s) && AwaitsTheLoad(s) && LifeEnabled(s, EvictFinish)
    ensures Sealed(LifeApply(s, EvictFinish))
  {
  }

  /** Every write of `after` was already there before. */
  predicate OnlyAnswers(before: seq<Write>, after: seq<Write>) {
    forall w | w in after :: exists v | v in before :: v.id == w.id && v.doc == w.doc
  }

  /** No step of its own, short of asking for a room, unseals a document or starts a save. */
  lemma SealedSessionStays(s: State, step: SessionStep)
    requires Sealed(s) && SessionEnabled(s, step) && !step.RequestRoom?
    ensures Sealed(SessionApply(s, step)) && SessionApply(s, step).db == s.db
  {
    hide InFlight;
  }

  lemma SealedSavingStays(s: State, step: SaveStep)
    requires Sealed(s) && SaveEnabled(s, step)
    ensures Sealed(SaveApply(s, step)) && OnlyAnswers(s.db.writes, SaveApply(s, step).db.writes)
    ensures s.db.deleted && s.db.store.None? ==> SaveApply(s, step).db.deleted && SaveApply(s, step).db.store.None?
  {
    hide Next;
    match step
    case SaveTimerFires(_, _) =>
    case Commit(i) =>
      IndexOfNext(s.db.writes, i);
      forall w | w in AfterCommit(s, i).db.writes
        ensures exists v | v in s.db.writes :: v.id == w.id && v.doc == w.doc
      {
        if w !in s.db.writes {
          assert s.db.writes[i] in s.db.writes;
        }
      }
    case SaveOk(i) => WithoutOnlyAnswers(s.db.writes, i);
    case SaveFail(i) => WithoutOnlyAnswers(s.db.writes, i);
  }

  lemma WithoutOnlyAnswers(writes: seq<Write>, i: nat)
    requires i < |writes|
    ensures OnlyAnswers(writes, Without(writes, i))
  {
    forall w | w in Without(writes, i) ensures exists v | v in writes :: v.id == w.id && v.doc == w.doc {
      assert w in writes;
    }
  }

  lemma SealedStays(s: State, step: Step)
    requires Sealed(s) && Enabled(s, step) && Own(step) && !Asks(step)
    ensures Sealed(Apply(s, step)) && OnlyAnswers(s.db.writes, Apply(s, step).db.writes)
    ensures s.db.deleted && s.db.store.None? ==> Apply(s, step).db.deleted && Apply(s, step).db.store.None?
  {
    hide SessionEnabled, SessionApply, SaveEnabled, SaveApply;
    match step
    case Session(x) => SealedSessionStays(s, x);
    case Saving(x) => SealedSavingStays(s, x);
    case Loading(x) =>
    case Change(x) =>
    case Life(x) =>
  }

  lemma AwaitStays(s: State, step: Step)
    requires AwaitsTheLoad(s) && Enabled(s, step) && Own(step) && !Asks(step)
    ensures AwaitsTheLoad(Apply(s, step))
  {
    hide InFlight, Next, Restores, Classified, Accept, ChangePresence, ExpirePresence, Drop, LastOut, NewRoom, NewTrack,
         Relay, Arrive, Stamp, Issue, Encoded, Without, Cancel, Join;
  }

  /** Own steps leave the eviction where it is. */
  lemma StillUnevicted(s: State, step: Step)
    requires Enabled(s, step) && Own(step)
    ensures Apply(s, step).eviction == s.eviction
  {
    if step.Life? {
      hide Cancel, Unload;
    } else {
      EvictionStays(s, step);
    }
  }

  // ---- Rooms the map does not hold ----

  /**
   A room cut off by a timer that was not keyed outlives the eviction
   (BoardTwoRooms.FiringCanOutliveEvictionExactly), and its next save is still
   written.
  */
  lemma StrayRoomStillSaves(s: State, id: RoomId, w: WriteId)
    requires LifeEnabled(s, EvictFinish) && id in s.svc.heap && id in s.hist.tracks && s.svc.live != Some(id)
    requires s.svc.heap[id].dirtySince.Some? && !InFlight(s.db, w)
    requires s.svc.heap[id].saveTimer.Some? && s.svc.heap[id].saveTimer.value <= s.now
    ensures
      var gone := LifeApply(s, EvictFinish);
      && SaveEnabled(gone, SaveTimerFires(id, w))
      && SaveApply(gone, SaveTimerFires(id, w)).db.writes ==
           s.db.writes + [Write(w, id, s.svc.heap[id].doc, false, 0)]
  {
  }

  // ---- The board ----

  ghost predicate Orderly(b: Board) {
    && Sharing(b.code) && Sharing(b.sandbox)
    && match b.stage
       case InUse => b.code.eviction.NotEvicted? && b.sandbox.eviction.NotEvicted?
       case EvictingCode => AwaitsTheLoad(b.code) && b.sandbox.eviction.NotEvicted?
       case EvictingSandbox => Sealed(b.code) && AwaitsTheLoad(b.sandbox)
       case Gone => Sealed(b.code) && Sealed(b.sandbox)
  }

  lemma BoardStepKeepsOrderly(b: Board, step: BoardStep)
    requires Orderly(b) && CanHappen(b, step) && Refusing(b, step)
    ensures Orderly(Take(b, step))
  {
    match step
    case OnCode(x) =>
      hide Sharing, AwaitsTheLoad, Sealed, Enabled, Apply, Keyed, Own, Asks;
      StepKeepsSharing(b.code, x);
      StillUnevicted(b.code, x);
      if b.stage.EvictingCode? { AwaitStays(b.code, x); }
      if b.stage.EvictingSandbox? || b.stage.Gone? { SealedStays(b.code, x); }
    case OnSandbox(x) =>
      hide Sharing, AwaitsTheLoad, Sealed, Enabled, Apply, Keyed, Own, Asks;
      StepKeepsSharing(b.sandbox, x);
      StillUnevicted(b.sandbox, x);
      if b.stage.EvictingSandbox? { AwaitStays(b.sandbox, x); }
      if b.stage.Gone? { SealedStays(b.sandbox, x); }
    case CodeGone =>
      hide Sharing, Sealed;
      FinishSeals(b.code);
      LifeKeepsSharing(b.code, EvictFinish);
      LifeKeepsSharing(b.sandbox, EvictStart);
    case SandboxGone =>
      hide Sharing, Sealed, AwaitsTheLoad;
      FinishSeals(b.sandbox);
      LifeKeepsSharing(b.sandbox, EvictFinish);
    case _ =>
      hide OneRoom, OneLoad, RealResults, RealPhases, RealTimers, RealWrites;
  }

  lemma {:induction false} BoardRunKeepsOrderly(b: Board, steps: seq<BoardStep>, c: Board)
    requires Orderly(b) && BoardRun(b, steps, c)
    ensures Orderly(c)
    decreases |steps|
  {
    hide Orderly, CanHappen, Take, Refusing;
    if steps != [] {
      BoardStepKeepsOrderly(b, steps[0]);
      BoardRunKeepsOrderly(Take(b, steps[0]), steps[1..], c);
    }
  }

  lemma OnlyAnswersTransitive(xs: seq<Write>, ys: seq<Write>, zs: seq<Write>)
    requires OnlyAnswers(xs, ys) && OnlyAnswers(ys, zs)
    ensures OnlyAnswers(xs, zs)
  {
    forall w | w in zs ensures exists v | v in xs :: v.id == w.id && v.doc == w.doc {
      var u :| u in ys && u.id == w.id && u.doc == w.doc;
      assert exists v | v in xs :: v.id == u.id && v.doc == u.doc;
    }
  }

  lemma AfterGone(b: Board, step: BoardStep)
    requires Orderly(b) && b.stage.Gone? && CanHappen(b, step) && Refusing(b, step)
    ensures
      var c := Take(b, step);
      && c.stage.Gone?
      && OnlyAnswers(b.code.db.writes, c.code.db.writes) && OnlyAnswers(b.sandbox.db.writes, c.sandbox.db.writes)
      && (Erased(b) ==> Erased(c))
  {
    hide Sharing, Sealed, Enabled, Apply, Keyed, Own, Asks;
    match step
    case OnCode(x) => SealedStays(b.code, x);
    case OnSandbox(x) => SealedStays(b.sandbox, x);
    case _ =>
  }

  /** Both rows are deleted, and nothing can bring them back. */
  predicate Erased(b: Board) {
    && b.code.db.deleted && b.code.db.store.None?
    && b.sandbox.db.deleted && b.sandbox.db.store.None?
  }

  /** Whatever happens after `evict` has returned. */
  lemma {:induction false} GoneStaysGone(b: Board, steps: seq<BoardStep>, c: Board)
    requires Orderly(b) && b.stage.Gone? && BoardRun(b, steps, c)
    ensures Orderly(c) && c.stage.Gone?
    ensures OnlyAnswers(b.code.db.writes, c.code.db.writes) && OnlyAnswers(b.sandbox.db.writes, c.sandbox.db.writes)
    ensures Erased(b) ==> Erased(c)
    decreases |steps|
  {
    hide Orderly, CanHappen, Take, Refusing, OnlyAnswers;
    if steps == [] {
      SameAnswers(b.code.db.writes);
      SameAnswers(b.sandbox.db.writes);
    } else {
      var a := Take(b, steps[0]);
      BoardStepKeepsOrderly(b, steps[0]);
      AfterGone(b, steps[0]);
      GoneStaysGone(a, steps[1..], c);
      OnlyAnswersTransitive(b.code.db.writes, a.code.db.writes, c.code.db.writes);
      OnlyAnswersTransitive(b.sandbox.db.writes, a.sandbox.db.writes, c.sandbox.db.writes);
    }
  }

  lemma SameAnswers(writes: seq<Write>)
    ensures OnlyAnswers(writes, writes)
  {
    forall w | w in writes ensures exists v | v in writes :: v.id == w.id && v.doc == w.doc {
      assert w.id == w.id;
    }
  }

  /**
   Eviction is final. Take any run from a fresh board to a moment when `evict`
   has returned, and any continuation of it: neither document is live or
   loading, no room can save, every write still outstanding had been issued
   before `evict` returned, and once the rows are deleted they stay deleted.
  */
  lemma EvictionIsFinal(before: seq<BoardStep>, b: Board, after: seq<BoardStep>, c: Board)
    requires BoardRun(FreshBoard, before, b) && b.stage.Gone? && BoardRun(b, after, c)
    ensures c.code.svc.live.None? && c.code.svc.loading.None?
    ensures c.sandbox.svc.live.None? && c.sandbox.svc.loading.None?
    ensures forall id | id in c.code.svc.heap :: c.code.svc.heap[id].saveTimer.None?
    ensures forall id | id in c.sandbox.svc.heap :: c.sandbox.svc.heap[id].saveTimer.None?
    ensures OnlyAnswers(b.code.db.writes, c.code.db.writes) && OnlyAnswers(b.sandbox.db.writes, c.sandbox.db.writes)
    ensures Erased(b) ==> Erased(c)
  {
    hide BoardRun, OnlyAnswers, Sharing;
    assert Orderly(FreshBoard) by { FreshIsOrderly(); }
    BoardRunKeepsOrderly(FreshBoard, before, b);
    GoneStaysGone(b, after, c);
  }

  lemma FreshIsOrderly()
    ensures Orderly(FreshBoard)
  {
  }
}
