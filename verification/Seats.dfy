/**
 Seating members on a board while other transactions do the same. A
 transaction is its statements one by one, and those of any number of
 transactions interleave; a statement sees committed rows only, and the board's
 row lock is held until the transaction ends. Rows may vanish at any moment
 (accounts are deleted), boards only when nobody holds their row. The unique
 index on members is not assumed.

 The main result is a refinement: every run answers as if each request had
 happened at once, at one instant while it ran.
*/
module Seats {
  import opened Prelude

  type BoardId = string
  type UserId = string
  type TxnId = nat

  datatype Board = Board(seats: nat, members: multiset<UserId>)

  type Boards = map<BoardId, Board>

  datatype Result = Added | AlreadyMember | Full

  // ---- The repository's operations, each in one piece ----

  datatype Call =
    | Create(board: BoardId, host: UserId, seats: nat)
    | Join(txn: TxnId, board: BoardId, user: UserId, result: Result)
    | Leave(board: BoardId, user: UserId)
    | Delete(board: BoardId)

  function Answer(b: Board, user: UserId): Result {
    if user in b.members then AlreadyMember else if |b.members| >= b.seats then Full else Added
  }

  function Seat(b: Board, user: UserId): Board {
    b.(members := b.members + multiset{user})
  }

  /** The call can happen with the result it reports. */
  predicate Valid(boards: Boards, call: Call) {
    match call
    case Create(board, _, seats) => board !in boards && seats >= 1
    case Join(_, board, user, result) => board in boards && result == Answer(boards[board], user)
    case Leave(board, user) => board in boards && user in boards[board].members
    case Delete(board) => board in boards
  }

  function Do(boards: Boards, call: Call): Boards
    requires Valid(boards, call)
  {
    match call
    case Create(board, host, seats) => boards[board := Board(seats, multiset{host})]
    case Join(_, board, user, result) => if result.Added? then boards[board := Seat(boards[board], user)] else boards
    case Leave(board, user) => boards[board := boards[board].(members := boards[board].members - multiset{user})]
    case Delete(board) => boards - {board}
  }

  predicate Allowed(boards: Boards, calls: seq<Call>)
    decreases |calls|
  {
    calls == [] || (Valid(boards, calls[0]) && Allowed(Do(boards, calls[0]), calls[1..]))
  }

  function DoAll(boards: Boards, calls: seq<Call>): Boards
    requires Allowed(boards, calls)
    decreases |calls|
  {
    if calls == [] then boards else DoAll(Do(boards, calls[0]), calls[1..])
  }

  // ---- The transactions, statement by statement ----

  datatype Phase =
    | Begun
    | Locked      // the board row is locked, or turned out to be gone
    | Unseated    // no membership found
    | HasRoom     // and a seat was free
    | Inserted    // the row is written, not yet committed
    | Answering(answer: Result)
    | Done(result: Result)
    | Failed

  datatype Txn =
    | Adding(board: BoardId, user: UserId, seats: nat, phase: Phase)
    | Creating(board: BoardId, user: UserId, seats: nat)
    | Closed

  /** `ids` are all board ids ever handed out. */
  datatype State = State(boards: Boards, locks: map<BoardId, TxnId>, txns: map<TxnId, Txn>, ids: set<BoardId>)

  const Start := State(map[], map[], map[], {})

  datatype Step =
    | BeginCreate(t: TxnId, board: BoardId, host: UserId, seats: nat)
    | CommitCreate(t: TxnId)
    | BeginAdd(t: TxnId, board: BoardId, user: UserId)
    | LockRow(t: TxnId)
    | FindMember(t: TxnId)
    | CountMembers(t: TxnId)
    | InsertMember(t: TxnId)
    | Commit(t: TxnId)
    | Abort(t: TxnId)
    | RemoveMember(board: BoardId, user: UserId)
    | DeleteBoard(board: BoardId)

  predicate In(s: State, t: TxnId, phase: Phase) {
    t in s.txns && s.txns[t].Adding? && s.txns[t].phase == phase
  }

  predicate Ended(txn: Txn) {
    txn.Closed? || (txn.Adding? && (txn.phase.Done? || txn.phase.Failed?))
  }

  predicate Enabled(s: State, step: Step) {
    match step
    case BeginCreate(t, board, _, seats) => t !in s.txns && board !in s.ids && seats >= 1
    case CommitCreate(t) => t in s.txns && s.txns[t].Creating?
    // The request has read the board by its code.
    case BeginAdd(t, board, _) => t !in s.txns && board in s.boards
    case LockRow(t) => In(s, t, Begun) && s.txns[t].board !in s.locks
    case FindMember(t) => In(s, t, Locked)
    case CountMembers(t) => In(s, t, Unseated)
    case InsertMember(t) => In(s, t, HasRoom)
    case Commit(t) => t in s.txns && s.txns[t].Adding? && (s.txns[t].phase.Inserted? || s.txns[t].phase.Answering?)
    case Abort(t) => t in s.txns && !Ended(s.txns[t])
    case RemoveMember(board, user) => board in s.boards && user in s.boards[board].members
    case DeleteBoard(board) => board in s.boards && board !in s.locks
  }

  function MembersSeen(s: State, board: BoardId): multiset<UserId> {
    if board in s.boards then s.boards[board].members else multiset{}
  }

  function Release(s: State, t: TxnId): map<BoardId, TxnId>
    requires t in s.txns && s.txns[t].Adding?
  {
    var board := s.txns[t].board;
    if board in s.locks && s.locks[board] == t then s.locks - {board} else s.locks
  }

  function Moved(s: State, t: TxnId, phase: Phase): map<TxnId, Txn>
    requires t in s.txns && s.txns[t].Adding?
  {
    s.txns[t := s.txns[t].(phase := phase)]
  }

  function Apply(s: State, step: Step): State
    requires Enabled(s, step)
  {
    match step
    case BeginCreate(t, board, host, seats) =>
      s.(txns := s.txns[t := Creating(board, host, seats)], ids := s.ids + {board})
    case CommitCreate(t) =>
      var txn := s.txns[t];
      s.(txns := s.txns[t := Closed], boards := s.boards[txn.board := Board(txn.seats, multiset{txn.user})])
    case BeginAdd(t, board, user) => s.(txns := s.txns[t := Adding(board, user, s.boards[board].seats, Begun)])
    case LockRow(t) =>
      var board := s.txns[t].board;
      s.(txns := Moved(s, t, Locked), locks := if board in s.boards then s.locks[board := t] else s.locks)
    case FindMember(t) =>
      var txn := s.txns[t];
      s.(txns := Moved(s, t, if txn.user in MembersSeen(s, txn.board) then Answering(AlreadyMember) else Unseated))
    case CountMembers(t) =>
      var txn := s.txns[t];
      s.(txns := Moved(s, t, if |MembersSeen(s, txn.board)| >= txn.seats then Answering(Full) else HasRoom))
    case InsertMember(t) =>
      // Without the board the foreign key refuses the row.
      if s.txns[t].board in s.boards then s.(txns := Moved(s, t, Inserted)) else s.(txns := Moved(s, t, Failed))
    case Commit(t) =>
      var txn := s.txns[t];
      if txn.phase.Answering? then s.(txns := Moved(s, t, Done(txn.phase.answer)), locks := Release(s, t))
      else
        s.(txns := Moved(s, t, Done(Added)), locks := Release(s, t),
           boards := if txn.board in s.boards then s.boards[txn.board := Seat(s.boards[txn.board], txn.user)]
                     else s.boards)
    case Abort(t) =>
      if s.txns[t].Creating? then s.(txns := s.txns[t := Closed])
      else s.(txns := Moved(s, t, Failed), locks := Release(s, t))
    case RemoveMember(board, user) =>
      s.(boards := s.boards[board := s.boards[board].(members := s.boards[board].members - multiset{user})])
    case DeleteBoard(board) => s.(boards := s.boards - {board})
  }

  predicate CanRun(s: State, steps: seq<Step>)
    decreases |steps|
  {
    steps == [] || (Enabled(s, steps[0]) && CanRun(Apply(s, steps[0]), steps[1..]))
  }

  function Final(s: State, steps: seq<Step>): State
    requires CanRun(s, steps)
    decreases |steps|
  {
    if steps == [] then s else Final(Apply(s, steps[0]), steps[1..])
  }

  // ---- When each request happens ----

  /** The call a step stands for: an answer is fixed when it is read, a seat is taken on commit. */
  function Happening(s: State, step: Step): seq<Call>
    requires Enabled(s, step)
  {
    match step
    case CommitCreate(t) => [Create(s.txns[t].board, s.txns[t].user, s.txns[t].seats)]
    case FindMember(t) =>
      var txn := s.txns[t];
      if txn.user in MembersSeen(s, txn.board) then [Join(t, txn.board, txn.user, AlreadyMember)] else []
    case CountMembers(t) =>
      var txn := s.txns[t];
      if |MembersSeen(s, txn.board)| >= txn.seats then [Join(t, txn.board, txn.user, Full)] else []
    case Commit(t) =>
      var txn := s.txns[t];
      if txn.phase.Inserted? then [Join(t, txn.board, txn.user, Added)] else []
    case RemoveMember(board, user) => [Leave(board, user)]
    case DeleteBoard(board) => [Delete(board)]
    case _ => []
  }

  function Happenings(s: State, steps: seq<Step>): seq<Call>
    requires CanRun(s, steps)
    decreases |steps|
  {
    if steps == [] then [] else Happening(s, steps[0]) + Happenings(Apply(s, steps[0]), steps[1..])
  }

  // ---- What the row lock keeps true ----

  /** From its lock to its end a transaction on a board that exists owns the row. */
  predicate Holding(txn: Txn) {
    txn.Adding? && !txn.phase.Begun? && !Ended(txn)
  }

  predicate TxnOk(s: State, t: TxnId, txn: Txn) {
    match txn
    case Closed => true
    case Creating(board, _, seats) => seats >= 1 && board in s.ids && board !in s.boards
    case Adding(board, user, seats, phase) =>
      && board in s.ids && seats >= 1
      && (board in s.boards ==>
            && s.boards[board].seats == seats
            && (Holding(txn) ==> board in s.locks && s.locks[board] == t)
            && (phase.Unseated? || phase.HasRoom? || phase.Inserted? ==> user !in s.boards[board].members)
            && (phase.HasRoom? || phase.Inserted? ==> |s.boards[board].members| < seats))
      && (phase.Inserted? ==> board in s.boards)
  }

  /** A lock's owner is a transaction on that board that still holds it. */
  predicate LockOk(s: State, board: BoardId, t: TxnId) {
    board in s.boards && t in s.txns && Holding(s.txns[t]) && s.txns[t].board == board
  }

  ghost predicate Sound(s: State) {
    && (forall t | t in s.txns :: TxnOk(s, t, s.txns[t]))
    && (forall board | board in s.locks :: LockOk(s, board, s.locks[board]))
    && (forall t, u | t in s.txns && u in s.txns && t != u && s.txns[t].Creating? :: !SameBoard(s.txns[t], s.txns[u]))
    && (forall board | board in s.boards :: board in s.ids && s.boards[board].seats >= 1)
  }

  predicate SameBoard(x: Txn, y: Txn) {
    !x.Closed? && !y.Closed? && x.board == y.board
  }

  predicate Acts(step: Step, t: TxnId) {
    !step.RemoveMember? && !step.DeleteBoard? && step.t == t
  }

  lemma ActorStaysOk(s: State, step: Step, t: TxnId)
    requires Sound(s) && Enabled(s, step) && Acts(step, t) && t in Apply(s, step).txns
    ensures TxnOk(Apply(s, step), t, Apply(s, step).txns[t])
  {
    if t in s.txns {
      assert TxnOk(s, t, s.txns[t]);
    }
  }

  /** A member row appears only in the hands of the lock's owner, so what others have read stays true. */
  lemma CommitSparesOthers(s: State, step: Step, t: TxnId)
    requires Sound(s) && Enabled(s, step) && step.Commit? && t in s.txns && t != step.t
    ensures t in Apply(s, step).txns && TxnOk(Apply(s, step), t, Apply(s, step).txns[t])
  {
    assert TxnOk(s, t, s.txns[t]) && TxnOk(s, step.t, s.txns[step.t]);
  }

  lemma RemovalsSpareOthers(s: State, step: Step, t: TxnId)
    requires Sound(s) && Enabled(s, step) && (step.RemoveMember? || step.DeleteBoard?) && t in s.txns
    ensures t in Apply(s, step).txns && TxnOk(Apply(s, step), t, Apply(s, step).txns[t])
  {
    assert TxnOk(s, t, s.txns[t]);
  }

  lemma OtherStepsSpareOthers(s: State, step: Step, t: TxnId)
    requires Sound(s) && Enabled(s, step) && t in s.txns
    requires !step.RemoveMember? && !step.DeleteBoard? && !step.Commit? && t != step.t
    ensures t in Apply(s, step).txns && TxnOk(Apply(s, step), t, Apply(s, step).txns[t])
  {
    assert TxnOk(s, t, s.txns[t]);
    if step.CommitCreate? {
      assert TxnOk(s, step.t, s.txns[step.t]);
    }
  }

  lemma TxnStaysOk(s: State, step: Step, t: TxnId)
    requires Sound(s) && Enabled(s, step) && t in Apply(s, step).txns
    ensures TxnOk(Apply(s, step), t, Apply(s, step).txns[t])
  {
    if Acts(step, t) {
      ActorStaysOk(s, step, t);
    } else if step.Commit? {
      CommitSparesOthers(s, step, t);
    } else if step.RemoveMember? || step.DeleteBoard? {
      RemovalsSpareOthers(s, step, t);
    } else {
      OtherStepsSpareOthers(s, step, t);
    }
    hide TxnOk;
  }

  lemma LockStaysOk(s: State, step: Step, board: BoardId)
    requires Sound(s) && Enabled(s, step) && board in Apply(s, step).locks
    ensures LockOk(Apply(s, step), board, Apply(s, step).locks[board])
  {
    hide TxnOk, SameBoard, Seat, MembersSeen;
    if board in s.locks {
      assert LockOk(s, board, s.locks[board]);
    }
  }

  lemma CreationsStayApart(s: State, step: Step, t: TxnId, u: TxnId)
    requires Sound(s) && Enabled(s, step)
    requires var txns := Apply(s, step).txns; t in txns && u in txns && t != u && txns[t].Creating?
    ensures !SameBoard(Apply(s, step).txns[t], Apply(s, step).txns[u])
  {
    if t in s.txns && u in s.txns {
      assert TxnOk(s, t, s.txns[t]) && TxnOk(s, u, s.txns[u]);
    }
  }

  lemma StepIsSound(s: State, step: Step)
    requires Sound(s) && Enabled(s, step)
    ensures Sound(Apply(s, step))
  {
    var after := Apply(s, step);
    forall t | t in after.txns ensures TxnOk(after, t, after.txns[t]) {
      TxnStaysOk(s, step, t);
    }
    forall board | board in after.locks ensures LockOk(after, board, after.locks[board]) {
      LockStaysOk(s, step, board);
    }
    forall t, u | t in after.txns && u in after.txns && t != u && after.txns[t].Creating?
      ensures !SameBoard(after.txns[t], after.txns[u])
    {
      CreationsStayApart(s, step, t, u);
    }
    IdsCoverBoards(s, step);
    hide Apply, Enabled, TxnOk, LockOk;
  }

  lemma IdsCoverBoards(s: State, step: Step)
    requires Sound(s) && Enabled(s, step)
    ensures
      var after := Apply(s, step);
      forall board | board in after.boards :: board in after.ids && after.boards[board].seats >= 1
  {
  }

  /** A step happens as its call does to the committed boards, and every other step leaves them alone. */
  lemma StepRefines(s: State, step: Step)
    requires Sound(s) && Enabled(s, step)
    ensures Allowed(s.boards, Happening(s, step))
    ensures DoAll(s.boards, Happening(s, step)) == Apply(s, step).boards
  {
    var calls := Happening(s, step);
    if calls != [] {
      assert Valid(s.boards, calls[0]);
      assert calls[1..] == [];
    }
  }

  // ---- Whole runs ----

  lemma {:induction false} AllowedConcat(boards: Boards, xs: seq<Call>, ys: seq<Call>)
    requires Allowed(boards, xs) && Allowed(DoAll(boards, xs), ys)
    ensures Allowed(boards, xs + ys) && DoAll(boards, xs + ys) == DoAll(DoAll(boards, xs), ys)
    decreases |xs|
  {
    hide Valid, Do;
    if xs == [] {
      assert xs + ys == ys;
    } else {
      AllowedConcat(Do(boards, xs[0]), xs[1..], ys);
      assert (xs + ys)[0] == xs[0] && (xs + ys)[1..] == xs[1..] + ys;
    }
  }

  /** The calls of a run, in the order they happen, are allowed one after the other and leave the same boards. */
  lemma {:induction false} RunRefines(s: State, steps: seq<Step>)
    requires Sound(s) && CanRun(s, steps)
    ensures Allowed(s.boards, Happenings(s, steps))
    ensures DoAll(s.boards, Happenings(s, steps)) == Final(s, steps).boards
    ensures Sound(Final(s, steps))
    decreases |steps|
  {
    if steps != [] {
      StepIsSound(s, steps[0]);
      StepRefines(s, steps[0]);
      RunRefines(Apply(s, steps[0]), steps[1..]);
      AllowedConcat(s.boards, Happening(s, steps[0]), Happenings(Apply(s, steps[0]), steps[1..]));
    }
  }

  /** Whatever a request was told, it was told at one of those instants. */
  ghost predicate Answered(txn: Txn, t: TxnId, calls: seq<Call>) {
    txn.Adding? && (txn.phase.Done? || txn.phase.Answering?) ==>
      Join(t, txn.board, txn.user, if txn.phase.Done? then txn.phase.result else txn.phase.answer) in calls
  }

  lemma StepAnswers(s: State, step: Step, t: TxnId, earlier: seq<Call>)
    requires Enabled(s, step) && (t in s.txns ==> Answered(s.txns[t], t, earlier))
    ensures t in Apply(s, step).txns ==> Answered(Apply(s, step).txns[t], t, earlier + Happening(s, step))
  {
  }

  lemma {:induction false} RunAnswers(s: State, steps: seq<Step>, t: TxnId, earlier: seq<Call>)
    requires CanRun(s, steps) && (t in s.txns ==> Answered(s.txns[t], t, earlier))
    ensures t in Final(s, steps).txns ==> Answered(Final(s, steps).txns[t], t, earlier + Happenings(s, steps))
    decreases |steps|
  {
    if steps == [] {
      assert earlier + Happenings(s, steps) == earlier;
    } else {
      var now := earlier + Happening(s, steps[0]);
      StepAnswers(s, steps[0], t, earlier);
      RunAnswers(Apply(s, steps[0]), steps[1..], t, now);
      assert now + Happenings(Apply(s, steps[0]), steps[1..]) == earlier + Happenings(s, steps);
    }
  }

  /**
   The run is explained by its requests done whole, one at a time: they leave
   the same boards, each is allowed with the answer it gave, and every answer
   given is among them.
  */
  lemma RequestsHappenAtOnce(steps: seq<Step>)
    requires CanRun(Start, steps)
    ensures
      var calls := Happenings(Start, steps);
      var s := Final(Start, steps);
      && Allowed(map[], calls) && DoAll(map[], calls) == s.boards
      && (forall t | t in s.txns && s.txns[t].Adding? && s.txns[t].phase.Done? ::
            Join(t, s.txns[t].board, s.txns[t].user, s.txns[t].phase.result) in calls)
  {
    RunRefines(Start, steps);
    var calls, s := Happenings(Start, steps), Final(Start, steps);
    forall t | t in s.txns && s.txns[t].Adding? && s.txns[t].phase.Done?
      ensures Join(t, s.txns[t].board, s.txns[t].user, s.txns[t].phase.result) in calls
    {
      RunAnswers(Start, steps, t, []);
      assert [] + calls == calls;
    }
  }

  // ---- Which answer a request gets ----

  /** The answer is right for the board as it is, and seats the user exactly when it says so. */
  ghost predicate RightAnswer(boards: Boards, after: Boards, board: BoardId, user: UserId, result: Result) {
    && board in boards && board in after
    && var (seats, members) := (boards[board].seats, boards[board].members);
    && (result == AlreadyMember <==> user in members)
    && (result == Full <==> user !in members && |members| >= seats)
    && (result == Added <==> user !in members && |members| < seats)
    && after[board] == Board(seats, if result == Added then members + multiset{user} else members)
    && after - {board} == boards - {board}
  }

  /** The request was answered at one step of the run, on the committed boards of that moment. */
  ghost predicate AnsweredAt(s: State, steps: seq<Step>, i: nat, txn: Txn, result: Result)
    requires CanRun(s, steps)
  {
    txn.Adding? && i < |steps| && CanRun(s, steps[..i]) && CanRun(s, steps[..i + 1])
    && RightAnswer(Final(s, steps[..i]).boards, Final(s, steps[..i + 1]).boards, txn.board, txn.user, result)
  }

  /** What the transaction has been told, once that is settled. */
  function Told(txn: Txn): Option<Result> {
    if txn.Adding? && txn.phase.Done? then Some(txn.phase.result)
    else if txn.Adding? && txn.phase.Answering? then Some(txn.phase.answer)
    else None
  }

  /** A transaction is told something new at one step, and rightly; what it asked for never changes. */
  lemma ToldRightly(s: State, step: Step, t: TxnId)
    requires Sound(s) && Enabled(s, step) && t in Apply(s, step).txns && Told(Apply(s, step).txns[t]).Some?
    ensures
      var txn := Apply(s, step).txns[t];
      || (t in s.txns && s.txns[t].Adding? && Told(s.txns[t]) == Told(txn)
          && (s.txns[t].board, s.txns[t].user) == (txn.board, txn.user))
      || RightAnswer(s.boards, Apply(s, step).boards, txn.board, txn.user, Told(txn).value)
  {
    if t in s.txns {
      assert TxnOk(s, t, s.txns[t]);
    }
  }

  lemma OneStep(s: State, step: Step)
    requires Enabled(s, step)
    ensures CanRun(s, [step]) && Final(s, [step]) == Apply(s, step)
  {
    assert [step][1..] == [];
  }

  /** Running a little further. */
  lemma {:induction false} Prefix(s: State, steps: seq<Step>, i: nat)
    requires CanRun(s, steps) && i < |steps|
    ensures CanRun(s, steps[..i]) && CanRun(s, steps[..i + 1])
    ensures Enabled(Final(s, steps[..i]), steps[i])
    ensures Final(s, steps[..i + 1]) == Apply(Final(s, steps[..i]), steps[i])
    decreases |steps|
  {
    if i == 0 {
      OneStep(s, steps[0]);
      assert steps[..1] == [steps[0]] && steps[..0] == [];
    } else {
      Prefix(Apply(s, steps[0]), steps[1..], i - 1);
      assert steps[..i][1..] == steps[1..][..i - 1] && steps[..i + 1][1..] == steps[1..][..i];
    }
  }

  lemma {:induction false} PrefixIsSound(s: State, steps: seq<Step>, i: nat)
    requires Sound(s) && CanRun(s, steps) && i <= |steps| && CanRun(s, steps[..i])
    ensures Sound(Final(s, steps[..i]))
  {
    RunRefines(s, steps[..i]);
  }

  /** Found by walking back from the end to the step that told it. */
  lemma {:induction false} WhenTold(steps: seq<Step>, upTo: nat, t: TxnId) returns (i: nat)
    requires CanRun(Start, steps) && upTo <= |steps| && CanRun(Start, steps[..upTo])
    requires t in Final(Start, steps[..upTo]).txns && Told(Final(Start, steps[..upTo]).txns[t]).Some?
    ensures
      var txn := Final(Start, steps[..upTo]).txns[t];
      AnsweredAt(Start, steps, i, txn, Told(txn).value)
    decreases upTo
  {
    assert steps[..0] == [];
    var last := upTo - 1;
    Prefix(Start, steps, last);
    PrefixIsSound(Start, steps, last);
    var before := Final(Start, steps[..last]);
    var txn := Apply(before, steps[last]).txns[t];
    ToldRightly(before, steps[last], t);
    if RightAnswer(before.boards, Apply(before, steps[last]).boards, txn.board, txn.user, Told(txn).value) {
      i := last;
    } else {
      i := WhenTold(steps, last, t);
    }
  }

  /**
   In every run, whoever was answered was answered rightly at some instant:
   already a member exactly if they had a row then, on a full board as well;
   full exactly if they had none and no seat was free; added exactly if they
   had none and one was, and then the board has one row more and no other
   board has changed.
  */
  lemma AnswersAreRight(steps: seq<Step>, t: TxnId) returns (i: nat)
    requires CanRun(Start, steps) && t in Final(Start, steps).txns
    requires Final(Start, steps).txns[t].Adding? && Final(Start, steps).txns[t].phase.Done?
    ensures
      var txn := Final(Start, steps).txns[t];
      AnsweredAt(Start, steps, i, txn, txn.phase.result)
  {
    assert steps[..|steps|] == steps;
    i := WhenTold(steps, |steps|, t);
  }

  // ---- No board overfull, nobody seated twice ----

  ghost predicate WellSeated(b: Board) {
    && |b.members| <= b.seats
    && forall user :: b.members[user] <= 1
  }

  lemma {:induction false} DoAllKeepsSeats(boards: Boards, calls: seq<Call>)
    requires Allowed(boards, calls)
    requires forall board | board in boards :: WellSeated(boards[board])
    ensures forall board | board in DoAll(boards, calls) :: WellSeated(DoAll(boards, calls)[board])
    decreases |calls|
  {
    if calls != [] {
      DoAllKeepsSeats(Do(boards, calls[0]), calls[1..]);
    }
  }

  /** However transactions interleave, abort or race deletions. */
  lemma NeverOverfullNeverTwice(steps: seq<Step>)
    requires CanRun(Start, steps)
    ensures var boards := Final(Start, steps).boards; forall board | board in boards :: WellSeated(boards[board])
  {
    RunRefines(Start, steps);
    DoAllKeepsSeats(map[], Happenings(Start, steps));
  }

  // ---- Who is a member ----

  /** The user's rows on the board after the call: creation seats the host, a removal takes one row. */
  function RowsThen(call: Call, board: BoardId, user: UserId, rows: int): int {
    match call
    case Create(created, host, _) => if created != board then rows else if host == user then 1 else 0
    case Join(_, joined, who, result) => if joined == board && who == user && result == Added then rows + 1 else rows
    case Leave(left, who) => if left == board && who == user then rows - 1 else rows
    case Delete(_) => rows
  }

  function Rows(calls: seq<Call>, board: BoardId, user: UserId, rows: int): int
    decreases |calls|
  {
    if calls == [] then rows else Rows(calls[1..], board, user, RowsThen(calls[0], board, user, rows))
  }

  lemma {:induction false} RowsAreKept(boards: Boards, calls: seq<Call>, board: BoardId, user: UserId, rows: int)
    requires Allowed(boards, calls) && (board in boards ==> boards[board].members[user] == rows)
    ensures
      var after := DoAll(boards, calls);
      board in after ==> after[board].members[user] == Rows(calls, board, user, rows)
    decreases |calls|
  {
    if calls != [] {
      RowsAreKept(Do(boards, calls[0]), calls[1..], board, user, RowsThen(calls[0], board, user, rows));
    }
  }

  /** Membership of every board a run leaves: its host and whoever was added, less whoever was removed. */
  lemma MembersAreThoseSeated(steps: seq<Step>, board: BoardId, user: UserId)
    requires CanRun(Start, steps) && board in Final(Start, steps).boards
    ensures Final(Start, steps).boards[board].members[user] == Rows(Happenings(Start, steps), board, user, 0)
  {
    RunRefines(Start, steps);
    RowsAreKept(map[], Happenings(Start, steps), board, user, 0);
  }

  // ---- The repository, one request at a time ----

  class BoardsRepository {
    var boards: Boards

    constructor ()
      ensures boards == map[]
    {
      boards := map[];
    }

    method CreateWithHost(board: BoardId, host: UserId, seats: nat)
      requires Valid(boards, Create(board, host, seats))
      modifies this
      ensures boards == Do(old(boards), Create(board, host, seats))
      ensures boards == old(boards)[board := Board(seats, multiset{host})]
    {
      boards := boards[board := Board(seats, multiset{})];
      boards := boards[board := Seat(boards[board], host)];
      assert boards[board].members == multiset{host};
    }

    /** `None` is the foreign key's refusal of a board deleted meanwhile. */
    method AddMember(board: BoardId, seats: nat, user: UserId) returns (result: Option<Result>)
      requires board in boards ==> boards[board].seats == seats
      requires seats >= 1
      modifies this
      ensures result.Some? <==> board in old(boards)
      ensures result.Some? ==>
                var call := Join(0, board, user, result.value);
                Valid(old(boards), call) && boards == Do(old(boards), call)
      ensures result.Some? ==> RightAnswer(old(boards), boards, board, user, result.value)
      ensures result.None? ==> boards == old(boards)
    {
      var members := if board in boards then boards[board].members else multiset{};
      if user in members {
        return Some(AlreadyMember);
      }
      if |members| >= seats {
        return Some(Full);
      }
      if board !in boards {
        return None;
      }
      boards := boards[board := Seat(boards[board], user)];
      return Some(Added);
    }
  }
}
