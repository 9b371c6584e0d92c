/**
 Who hears a document. The gateway subscribes a socket when it opens a
 document and unsubscribes it when it leaves, or finds a project nobody has
 started. A socket whose load failed stays subscribed: the handler throws
 before it could undo that.
*/
module BoardGate {
  import opened Prelude
  import opened BoardRoom
  import opened BoardMachine
  import opened BoardSharing
  import opened BoardRelay

  predicate Listens(s: State, k: SocketId) {
    k in s.gate.phases && Listening(s.gate.phases[k])
  }

  /** Whoever leaves is neither subscribed nor listed, and whoever has the document open is listed. */
  ghost predicate InOrder(kind: Kind, gate: Gate) {
    && (forall k | k in gate.subscribers + gate.registered :: k in gate.phases && !gate.phases[k].Leaving?)
    && (forall k | k in gate.phases && gate.phases[k].Open? :: k in gate.registered)
    && (forall k | k in gate.phases && gate.phases[k].Opening? && kind.Code? :: k in gate.registered)
  }

  /** A step of the handlers of this very socket. */
  predicate About(step: Step, k: SocketId) {
    step.Session? && !step.session.LeaveFinish? && step.session.socket == k
  }

  /** The socket's open ends with the failure of its load. */
  predicate OpenFails(s: State, step: Step, k: SocketId) {
    && step == Session(JoinFinish(k)) && Enabled(s, step)
    && Resolved(s.svc, s.loads, s.gate.phases[k].on) == Some(Failed)
  }

  // ---- One step ----

  function GateAfter(s: State, step: SessionStep): Gate
    requires SessionEnabled(s, step)
  {
    match step
    case Subscribe(k) => AfterSubscribe(s, k).gate
    case RequestRoom(k, l) => Opens(s.gate, s.kind, k, Request(s.svc, l).1)
    case JoinFinish(k) => Joins(s.gate, k, Resolved(s.svc, s.loads, s.gate.phases[k].on).value)
    case Unsubscribe(k) => AfterUnsubscribe(s, k).gate
    case LeaveStart(k, _, _) => s.gate.(phases := s.gate.phases[k := Closed])
    case LeaveFinish(_, _) => s.gate
  }

  lemma HandlersMoveTheGate(s: State, step: SessionStep)
    requires SessionEnabled(s, step)
    ensures SessionApply(s, step).gate == GateAfter(s, step) && SessionApply(s, step).kind == s.kind
  {
    hide InFlight, Current, Drop, LastOut, Issue, Encoded, Cancel, Enter, Request, StartLoad, With, Opens, Joins,
         Resolved;
  }

  lemma OnlyHandlersMoveTheGate(s: State, step: Step)
    requires Enabled(s, step) && !step.Session?
    ensures Apply(s, step).gate == s.gate && Apply(s, step).kind == s.kind
  {
    hide Restores, Install, NewRoom, NewTrack, Accept, Arrive, Relay, Stamp, TooLarge, ChangePresence, ExpirePresence,
         Classified, InFlight, Issue, Encoded, Without, Next, Cancel, Unload, Evict, SaveStart;
    match step
    case Saving(Commit(i)) => IndexOfNext(s.db.writes, i);
    case _ =>
  }

  lemma HandlersKeepOrder(s: State, step: SessionStep)
    requires InOrder(s.kind, s.gate) && SessionEnabled(s, step)
    ensures var t := SessionApply(s, step); t.kind == s.kind && InOrder(t.kind, t.gate)
  {
    HandlersMoveTheGate(s, step);
    hide SessionApply, InFlight, Current, Request, Resolved;
  }

  lemma StepKeepsOrder(s: State, step: Step)
    requires InOrder(s.kind, s.gate) && Enabled(s, step)
    ensures InOrder(Apply(s, step).kind, Apply(s, step).gate)
  {
    hide InOrder;
    if step.Session? {
      HandlersKeepOrder(s, step.session);
    } else {
      OnlyHandlersMoveTheGate(s, step);
    }
  }

  lemma {:induction false} RunKeepsOrder(s: State, steps: seq<Step>, t: State, allowed: Assumption)
    requires InOrder(s.kind, s.gate) && AllHeard(s) && Run(s, steps, t, allowed)
    ensures InOrder(t.kind, t.gate) && AllHeard(t)
    decreases |steps|
  {
    hide InOrder, AllHeard, Enabled, Apply;
    if steps != [] {
      StepKeepsOrder(s, steps[0]);
      StepKeepsHeard(s, steps[0]);
      RunKeepsOrder(Apply(s, steps[0]), steps[1..], t, allowed);
    }
  }

  /** One socket's standing is its own handlers' business. */
  lemma OthersStandStill(s: State, step: Step, k: SocketId)
    requires Enabled(s, step) && !About(step, k)
    ensures
      var t := Apply(s, step);
      && (k in t.gate.subscribers <==> k in s.gate.subscribers) && (k in t.gate.registered <==> k in s.gate.registered)
      && (Listens(t, k) <==> Listens(s, k))
  {
    hide SessionEnabled, SessionApply, LoadApply, EditApply, SaveApply, LifeApply;
    if step.Session? {
      OtherHandlers(s, step.session, k);
    } else {
      OnlyHandlersMoveTheGate(s, step);
    }
  }

  lemma OtherHandlers(s: State, step: SessionStep, k: SocketId)
    requires SessionEnabled(s, step) && !About(Session(step), k)
    ensures
      var t := SessionApply(s, step);
      && (k in t.gate.subscribers <==> k in s.gate.subscribers) && (k in t.gate.registered <==> k in s.gate.registered)
      && (Listens(t, k) <==> Listens(s, k))
  {
    HandlersMoveTheGate(s, step);
    hide SessionApply, InFlight, Current, Request, Resolved;
  }

  /** After a handler of its own a socket is subscribed if and only if it listens or its open has just failed. */
  lemma OwnHandlers(s: State, step: Step, k: SocketId)
    requires InOrder(s.kind, s.gate) && AllHeard(s) && Enabled(s, step) && About(step, k)
    ensures k in Apply(s, step).gate.subscribers <==> Listens(Apply(s, step), k) || OpenFails(s, step, k)
  {
    HandlersMoveTheGate(s, step.session);
    hide SessionApply, InFlight, Current, Request, Resolved;
  }

  // ---- Whole runs ----

  /** The last thing the socket's handlers did was to fail at opening the document. */
  ghost predicate LastFailed(s: State, steps: seq<Step>, k: SocketId, allowed: Assumption) {
    exists i: nat, u: State | i < |steps| :: FailedAt(s, steps, k, allowed, i, u)
  }

  ghost predicate FailedAt(s: State, steps: seq<Step>, k: SocketId, allowed: Assumption, i: nat, u: State)
    requires i < |steps|
  {
    && Run(s, steps[..i], u, allowed) && OpenFails(u, steps[i], k)
    && forall j | i < j < |steps| :: !About(steps[j], k)
  }

  ghost predicate Silent(steps: seq<Step>, k: SocketId) {
    forall j | 0 <= j < |steps| :: !About(steps[j], k)
  }

  lemma FirstOrLater(s: State, steps: seq<Step>, k: SocketId, allowed: Assumption)
    requires steps != [] && Enabled(s, steps[0]) && allowed(s, steps[0])
    ensures LastFailed(s, steps, k, allowed) <==>
            || LastFailed(Apply(s, steps[0]), steps[1..], k, allowed)
            || (Silent(steps[1..], k) && OpenFails(s, steps[0], k))
    ensures Silent(steps, k) <==> Silent(steps[1..], k) && !About(steps[0], k)
  {
    hide Enabled, Apply, About, OpenFails;
    var now, rest := Apply(s, steps[0]), steps[1..];
    assert forall j | 0 < j < |steps| :: steps[j] == rest[j - 1];
    assert forall j | 0 <= j < |rest| :: rest[j] == steps[j + 1];
    if LastFailed(s, steps, k, allowed) {
      var i: nat, u :| i < |steps| && FailedAt(s, steps, k, allowed, i, u);
      if i > 0 {
        assert steps[..i][1..] == rest[..i - 1];
        assert FailedAt(now, rest, k, allowed, i - 1, u);
      }
    }
    if LastFailed(now, rest, k, allowed) {
      var i: nat, u :| i < |rest| && FailedAt(now, rest, k, allowed, i, u);
      assert steps[..i + 1][1..] == rest[..i];
      assert FailedAt(s, steps, k, allowed, i + 1, u);
    }
    if Silent(rest, k) && OpenFails(s, steps[0], k) {
      assert FailedAt(s, steps, k, allowed, 0, s);
    }
  }

  lemma {:induction false} Trail(s: State, steps: seq<Step>, t: State, allowed: Assumption, k: SocketId)
    requires InOrder(s.kind, s.gate) && AllHeard(s) && Run(s, steps, t, allowed)
    ensures k in t.gate.subscribers <==>
            || Listens(t, k) || LastFailed(s, steps, k, allowed)
            || (Silent(steps, k) && k in s.gate.subscribers)
    ensures Silent(steps, k) ==> (Listens(t, k) <==> Listens(s, k))
    decreases |steps|
  {
    hide InOrder, AllHeard, Enabled, Apply, About, OpenFails, Listens, LastFailed, Silent;
    if steps == [] {
      ListenersSubscribe(s, k);
      NothingHappened(s, k, allowed);
    } else {
      StepKeepsOrder(s, steps[0]);
      StepKeepsHeard(s, steps[0]);
      Trail(Apply(s, steps[0]), steps[1..], t, allowed, k);
      FirstOrLater(s, steps, k, allowed);
      if About(steps[0], k) {
        OwnHandlers(s, steps[0], k);
      } else {
        OthersStandStill(s, steps[0], k);
        OnlyOwnFailures(s, steps[0], k);
      }
    }
  }

  lemma NothingHappened(s: State, k: SocketId, allowed: Assumption)
    ensures Silent([], k) && !LastFailed(s, [], k, allowed)
  {
  }

  lemma OnlyOwnFailures(s: State, step: Step, k: SocketId)
    requires !About(step, k)
    ensures !OpenFails(s, step, k)
  {
  }

  lemma ListenersSubscribe(s: State, k: SocketId)
    requires AllHeard(s)
    ensures Listens(s, k) ==> k in s.gate.subscribers
  {
  }

  /**
   In every run a socket hears a document if and only if it is opening it or
   has it open, or the last thing its handlers did was to fail at opening it.
  */
  lemma {:induction false} SubscribersExactly(kind: Kind, steps: seq<Step>, t: State, allowed: Assumption, k: SocketId)
    requires Run(Start(kind), steps, t, allowed)
    ensures k in t.gate.subscribers <==> Listens(t, k) || LastFailed(Start(kind), steps, k, allowed)
  {
    hide Run, LastFailed;
    Trail(Start(kind), steps, t, allowed, k);
  }

  /** Once unsubscribed and unlisted, a socket hears nothing of the document until it opens it again. */
  lemma {:induction false} StrangersHearNothing(s: State, steps: seq<Step>, t: State, k: SocketId)
    requires AllHeard(s) && Run(s, steps, t, (u, step) => step != Session(Subscribe(k)))
    requires k !in s.gate.subscribers && k !in s.gate.registered
    ensures k !in t.gate.subscribers && k !in t.gate.registered
    ensures k in s.hist.known ==> k in t.hist.known && t.hist.known[k] == s.hist.known[k]
    decreases |steps|
  {
    hide AllHeard, Enabled, Apply;
    if steps != [] {
      StepKeepsHeard(s, steps[0]);
      StrangerStays(s, steps[0], k);
      StrangersHearNothing(Apply(s, steps[0]), steps[1..], t, k);
    }
  }

  lemma StrangerStays(s: State, step: Step, k: SocketId)
    requires AllHeard(s) && Enabled(s, step) && step != Session(Subscribe(k))
    requires k !in s.gate.subscribers && k !in s.gate.registered
    ensures
      var t := Apply(s, step);
      && k !in t.gate.subscribers && k !in t.gate.registered
      && (k in s.hist.known ==> k in t.hist.known && t.hist.known[k] == s.hist.known[k])
  {
    hide SessionEnabled, SessionApply, LoadApply, EditApply, SaveApply, LifeApply;
    OnlySubscribersHear(s, step, k);
    if step.Session? {
      StrangersHandlers(s, step.session, k);
    } else {
      OnlyHandlersMoveTheGate(s, step);
    }
  }

  lemma StrangersHandlers(s: State, step: SessionStep, k: SocketId)
    requires AllHeard(s) && SessionEnabled(s, step) && step != Subscribe(k)
    requires k !in s.gate.subscribers && k !in s.gate.registered
    ensures k !in SessionApply(s, step).gate.subscribers && k !in SessionApply(s, step).gate.registered
  {
    HandlersMoveTheGate(s, step);
    hide SessionApply, InFlight, Current, Request, Resolved;
  }

  lemma OnlySubscribersHear(s: State, step: Step, k: SocketId)
    requires AllHeard(s) && Enabled(s, step) && step != Session(Subscribe(k))
    requires k !in s.gate.subscribers && k !in s.gate.registered
    ensures k in s.hist.known ==> k in Apply(s, step).hist.known && Apply(s, step).hist.known[k] == s.hist.known[k]
  {
    hide SessionEnabled, SessionApply, Restores, Install, NewRoom, NewTrack, Accept, Arrive, Stamp, TooLarge,
         ChangePresence, ExpirePresence, Classified, InFlight, Issue, Without, Next, Cancel, Unload, Evict, SaveStart,
         With;
    match step
    case Session(x) => StrangersHandlersSayNothing(s, x, k);
    case Saving(Commit(i)) => IndexOfNext(s.db.writes, i);
    case _ =>
  }

  lemma StrangersHandlersSayNothing(s: State, step: SessionStep, k: SocketId)
    requires AllHeard(s) && SessionEnabled(s, step) && step != Subscribe(k)
    requires k !in s.gate.subscribers && k !in s.gate.registered
    ensures
      var t := SessionApply(s, step);
      k in s.hist.known ==> k in t.hist.known && t.hist.known[k] == s.hist.known[k]
  {
    hide InFlight, Issue, Cancel, Drop, LastOut, Enter, Request, Opens, Joins, With, StartLoad;
  }

  /** Whoever has begun to leave hears nothing more, in any run, until it opens the document again. */
  lemma {:induction false} LeaversHearNothing(kind: Kind, past: seq<Step>, s: State, allowed: Assumption,
                                              steps: seq<Step>, t: State, k: SocketId)
    requires Run(Start(kind), past, s, allowed) && k in s.gate.phases && s.gate.phases[k].Leaving?
    requires Run(s, steps, t, (u, step) => step != Session(Subscribe(k)))
    ensures k !in t.gate.subscribers && k !in t.gate.registered
    ensures k in s.hist.known ==> k in t.hist.known && t.hist.known[k] == s.hist.known[k]
  {
    hide Run, AllHeard;
    StartIsHeard(kind);
    RunKeepsOrder(Start(kind), past, s, allowed);
    StrangersHearNothing(s, steps, t, k);
  }

  lemma StartIsHeard(kind: Kind)
    ensures AllHeard(Start(kind))
  {
  }

  /** And a socket that found a project not started is unsubscribed again. */
  lemma UnstartedIsLeft(s: State, k: SocketId)
    requires SessionEnabled(s, JoinFinish(k)) && Resolved(s.svc, s.loads, s.gate.phases[k].on) == Some(Nothing)
    ensures
      var t := SessionApply(s, JoinFinish(k));
      k !in t.gate.subscribers && t.gate.phases[k] == Closed && t.svc == s.svc
  {
  }

  // ---- What open sockets write, everyone hears ----

  /** The edit is in the room, everyone who has the document open has all of it, and nobody else heard. */
  ghost predicate Reached(s: State, t: State, id: RoomId, k: SocketId, update: Update)
    requires id in s.svc.heap
  {
    && t.svc.live == Some(id) && id in t.svc.heap
    && t.svc.heap[id].doc.ops == s.svc.heap[id].doc.ops + update.ops
    && t.svc.heap[id].bytes == s.svc.heap[id].bytes + update.bytes
    && (forall j | j in s.gate.phases && s.gate.phases[j].Open? ::
          j in t.hist.known && t.svc.heap[id].doc.ops <= t.hist.known[j])
    && (forall j | j in s.hist.known && j !in s.gate.subscribers && j != k ::
          j in t.hist.known && t.hist.known[j] == s.hist.known[j])
  }

  /**
   In every attended run, an edit from a socket that has the document open is
   merged into the live room and reaches everyone who has it open, unless it is
   larger than 256 KiB or would take the room past 4 MiB; then nothing happens.
  */
  lemma {:induction false} EditsReachEveryone(kind: Kind, past: seq<Step>, s: State, k: SocketId, update: Update,
                                              size: nat)
    requires Run(Start(kind), past, s, Attended) && !s.eviction.Happened()
    requires k in s.gate.phases && s.gate.phases[k].Open? && EditEnabled(s, Edit(k, update, size))
    ensures s.svc.live.Some? && s.svc.live.value in s.svc.heap
    ensures
      var t := EditApply(s, Edit(k, update, size));
      if update.bytes <= 256 * 1024 && s.svc.heap[s.svc.live.value].bytes + update.bytes <= 4 * 1024 * 1024
      then Reached(s, t, s.svc.live.value, k, update) else t == s
  {
    hide Run, Attended, AllHeard, Accept, Arrive, Stamp;
    StartIsHeard(kind);
    RunKeepsOrder(Start(kind), past, s, Attended);
    forall j | j in s.gate.phases && s.gate.phases[j].Open?
      ensures s.svc.live.Some? && s.svc.live.value in s.svc.heap && j in s.hist.known
      ensures j in s.svc.heap[s.svc.live.value].sockets && s.svc.heap[s.svc.live.value].doc.ops <= s.hist.known[j]
      ensures j in s.gate.subscribers
    {
      NoMissedUpdate(kind, past, s, j);
      ListenersSubscribe(s, j);
    }
    MergedEdit(s.svc.heap[s.svc.live.value], update, size, s.now);
  }

  lemma MergedEdit(room: Room, update: Update, size: nat, now: nat)
    ensures
      var after := Accept(room, update, size, now);
      after.doc.ops == room.doc.ops + update.ops && after.bytes == room.bytes + update.bytes
  {
  }
}
