/**
 The mailer's cache of template rows, for one key. Lookups, loads, this
 instance's updates and other instances' writes interleave between awaits; a
 load reads the row at one instant and stores it at a later one. Time does not
 run backwards.
*/
module TemplateCache {
  import opened Prelude

  const TTL_MS: nat := 60000

  datatype Template = Template(templateId: string, fromEmail: Option<string>, isActive: bool)

  type Row = Option<Template>

  datatype Hit = Hit(value: Row, expiresAt: nat)

  // ---- What the service does between two awaits ----

  function Usable(cache: Option<Hit>, now: nat): Option<Row> {
    if cache.Some? && cache.value.expiresAt > now then Some(cache.value.value) else None
  }

  function Stored(value: Row, now: nat): Hit {
    Hit(value, now + TTL_MS)
  }

  class EmailTemplateService {
    var cache: map<string, Hit>

    constructor ()
      ensures cache == map[]
    {
      cache := map[];
    }

    function At(key: string): Option<Hit>
      reads this
    {
      if key in cache then Some(cache[key]) else None
    }

    /** `getCached` up to its await. */
    method Lookup(key: string, now: nat) returns (answer: Option<Row>)
      ensures answer == Usable(At(key), now)
      ensures answer.Some? <==> key in cache && now < cache[key].expiresAt
      ensures answer.Some? ==> answer.value == cache[key].value
    {
      answer := None;
      if key in cache && cache[key].expiresAt > now {
        answer := Some(cache[key].value);
      }
    }

    /** The rest of `getCached`, once the row is there. */
    method FinishLoad(key: string, value: Row, now: nat) returns (answer: Row)
      modifies this
      ensures answer == value && At(key) == Some(Stored(value, now))
      ensures key in cache && cache[key] == Hit(value, now + TTL_MS)
      ensures forall other | other != key :: At(other) == old(At(other))
    {
      cache := cache[key := Hit(value, now + TTL_MS)];
      answer := value;
    }

    /** The end of `update`, once the row is written. */
    method Invalidate(key: string)
      modifies this
      ensures At(key) == None
      ensures forall other | other != key :: At(other) == old(At(other))
    {
      cache := cache - {key};
    }

    /** After the catalogue was synchronised at start-up. */
    method Clear()
      modifies this
      ensures forall key :: At(key) == None
    {
      cache := map[];
    }
  }

  // ---- One key among all instances ----

  /** The row as of `since`, until the next version. */
  datatype Version = Version(row: Row, since: nat)

  /** Which version a load saw, and when; kept only to state what is promised. */
  datatype Origin = Origin(version: nat, started: nat, readAt: nat, finished: nat)

  type LoadId = nat

  datatype Load = Waiting(started: nat) | Carrying(value: Row, origin: Origin)

  datatype Reply = Reply(at: nat, row: Row, origin: Origin)

  datatype State = State(
    now: nat,
    versions: seq<Version>,
    cache: Option<Hit>,
    cached: Origin,
    loads: map<LoadId, Load>,
    replies: seq<Reply>)

  datatype Step =
    | Tick(later: nat)
    | Write(row: Row)        // committed by this instance or another
    | Forget                 // the entry is deleted here
    | Look(id: LoadId)
    | Read(id: LoadId)
    | Finish(id: LoadId)
    | Fail(id: LoadId)

  function Start(row: Row): State {
    State(0, [Version(row, 0)], None, Origin(0, 0, 0, 0), map[], [])
  }

  predicate Enabled(s: State, step: Step) {
    match step
    case Tick(later) => s.now <= later
    case Write(_) => true
    case Forget => true
    case Look(id) => id !in s.loads
    case Read(id) => id in s.loads && s.loads[id].Waiting? && s.versions != []
    case Finish(id) => id in s.loads && s.loads[id].Carrying?
    case Fail(id) => id in s.loads
  }

  function Apply(s: State, step: Step): State
    requires Enabled(s, step)
  {
    match step
    case Tick(later) => s.(now := later)
    case Write(row) => s.(versions := s.versions + [Version(row, s.now)])
    case Forget => s.(cache := None)
    case Look(id) =>
      var hit := Usable(s.cache, s.now);
      if hit.Some? then s.(replies := s.replies + [Reply(s.now, hit.value, s.cached)])
      else s.(loads := s.loads[id := Waiting(s.now)])
    case Read(id) =>
      var latest := |s.versions| - 1;
      s.(loads := s.loads[id := Carrying(s.versions[latest].row, Origin(latest, s.loads[id].started, s.now, s.now))])
    case Finish(id) =>
      var load := s.loads[id];
      var origin := load.origin.(finished := s.now);
      s.(cache := Some(Stored(load.value, s.now)), cached := origin, loads := s.loads - {id},
         replies := s.replies + [Reply(s.now, load.value, origin)])
    case Fail(id) => s.(loads := s.loads - {id})
  }

  predicate CanRun(s: State, steps: seq<Step>)
    decreases |steps|
  {
    steps == [] || (Enabled(s, steps[0]) && CanRun(Apply(s, steps[0]), steps[1..]))
  }

  function Final(s: State, steps: seq<Step>): State
    requires CanRun(s, steps)
    decreases |steps|
  {
    if steps == [] then s else Final(Apply(s, steps[0]), steps[1..])
  }

  // ---- How old an answer can be ----

  /** At `at` this was the row in the database. */
  predicate WasStored(versions: seq<Version>, row: Row, version: nat, at: nat) {
    && version < |versions| && versions[version].row == row && versions[version].since <= at
    && (version + 1 < |versions| ==> at <= versions[version + 1].since)
  }

  /** The row was in the database while its load ran. */
  predicate FromLoad(versions: seq<Version>, row: Row, origin: Origin) {
    WasStored(versions, row, origin.version, origin.readAt) && origin.started <= origin.readAt <= origin.finished
  }

  /** The row was in the database less than TTL_MS and its load's duration ago. */
  predicate Recent(versions: seq<Version>, reply: Reply) {
    var origin := reply.origin;
    && FromLoad(versions, reply.row, origin)
    && origin.finished <= reply.at && reply.at - origin.readAt < TTL_MS + (origin.finished - origin.started)
  }

  predicate LoadOk(s: State, load: Load) {
    match load
    case Waiting(started) => started <= s.now
    case Carrying(value, origin) => FromLoad(s.versions, value, origin) && origin.finished <= s.now
  }

  ghost predicate Sound(s: State) {
    && (forall i | 0 <= i < |s.versions| :: s.versions[i].since <= s.now)
    && (forall id | id in s.loads :: LoadOk(s, s.loads[id]))
    && (s.cache.Some? ==>
          && FromLoad(s.versions, s.cache.value.value, s.cached)
          && s.cached.finished <= s.now && s.cache.value.expiresAt == s.cached.finished + TTL_MS)
    && (forall i | 0 <= i < |s.replies| :: Recent(s.versions, s.replies[i]) && s.replies[i].at <= s.now)
  }

  lemma StepIsSound(s: State, step: Step)
    requires Sound(s) && Enabled(s, step)
    ensures Sound(Apply(s, step))
  {
  }

  lemma {:induction false} RunIsSound(s: State, steps: seq<Step>)
    requires Sound(s) && CanRun(s, steps)
    ensures Sound(Final(s, steps))
    decreases |steps|
  {
    if steps != [] {
      StepIsSound(s, steps[0]);
      RunIsSound(Apply(s, steps[0]), steps[1..]);
    }
  }

  /** Every answer was the stored row at an instant less than TTL_MS plus one load's duration before it. */
  lemma AnswersAreRecent(row: Row, steps: seq<Step>, i: nat)
    requires CanRun(Start(row), steps) && i < |Final(Start(row), steps).replies|
    ensures
      var s := Final(Start(row), steps);
      Recent(s.versions, s.replies[i])
  {
    RunIsSound(Start(row), steps);
  }

  // ---- How long a row is answered ----

  /** In every run a lookup is answered from the cache if and only if its row was stored less than TTL_MS ago. */
  lemma LookupHitsExactly(row: Row, steps: seq<Step>, id: LoadId)
    requires CanRun(Start(row), steps) && Enabled(Final(Start(row), steps), Look(id))
    ensures
      var s := Final(Start(row), steps);
      var t := Apply(s, Look(id));
      if s.cache.Some? && s.now < s.cached.finished + TTL_MS
      then t == s.(replies := s.replies + [Reply(s.now, s.cache.value.value, s.cached)])
      else t == s.(loads := s.loads[id := Waiting(s.now)])
  {
    RunIsSound(Start(row), steps);
  }

  /** No load ends and nothing is forgotten. */
  predicate Undisturbed(steps: seq<Step>) {
    forall i | 0 <= i < |steps| :: !steps[i].Finish? && !steps[i].Forget?
  }

  lemma {:induction false} CacheStays(s: State, steps: seq<Step>)
    requires CanRun(s, steps) && Undisturbed(steps)
    ensures Final(s, steps).cache == s.cache && Final(s, steps).cached == s.cached
    decreases |steps|
  {
    if steps != [] {
      assert Undisturbed(steps[1..]) by { assert forall i | 0 <= i < |steps[1..]| :: steps[1..][i] == steps[i + 1]; }
      CacheStays(Apply(s, steps[0]), steps[1..]);
    }
  }

  /** A loaded row is what this instance answers for the whole TTL, unless it is forgotten or loaded again. */
  lemma LoadedRowIsAnswered(s: State, load: LoadId, steps: seq<Step>, id: LoadId)
    requires Enabled(s, Finish(load)) && CanRun(Apply(s, Finish(load)), steps) && Undisturbed(steps)
    requires
      var t := Final(Apply(s, Finish(load)), steps);
      Enabled(t, Look(id)) && t.now < s.now + TTL_MS
    ensures
      var t := Final(Apply(s, Finish(load)), steps);
      var after := Apply(t, Look(id));
      && |after.replies| == |t.replies| + 1 && after.loads == t.loads
      && after.replies[|t.replies|].row == s.loads[load].value && after.replies[|t.replies|].at == t.now
  {
    CacheStays(Apply(s, Finish(load)), steps);
  }

  // ---- When an update is seen ----

  /** No row read before version `v` is cached or on its way into the cache. */
  predicate NothingOlder(s: State, v: nat) {
    && (s.cache.Some? ==> s.cached.version >= v)
    && (forall id | id in s.loads && s.loads[id].Carrying? :: s.loads[id].origin.version >= v)
  }

  /** From `s` on, this instance answers with version `v` or a newer one. */
  ghost predicate Seen(s: State, v: nat) {
    forall steps | CanRun(s, steps) :: AnswersFrom(s, steps, v)
  }

  predicate AnswersFrom(s: State, steps: seq<Step>, v: nat)
    requires CanRun(s, steps)
  {
    forall i | |s.replies| <= i < |Final(s, steps).replies| :: Final(s, steps).replies[i].origin.version >= v
  }

  lemma {:induction false} NothingOlderIsAnswered(s: State, steps: seq<Step>, v: nat, before: nat)
    requires CanRun(s, steps) && v < |s.versions| && NothingOlder(s, v) && before <= |s.replies|
    requires forall i | before <= i < |s.replies| :: s.replies[i].origin.version >= v
    ensures before <= |Final(s, steps).replies|
    ensures forall i | before <= i < |Final(s, steps).replies| :: Final(s, steps).replies[i].origin.version >= v
    decreases |steps|
  {
    if steps != [] {
      NothingOlderIsAnswered(Apply(s, steps[0]), steps[1..], v, before);
    }
  }

  /**
   After the last stretch of an update, which forgets the cached row, its
   version `v` is what this instance answers (or a newer one) if and only if no
   load has read an older row and is still on its way.
  */
  lemma UpdateIsSeenExactly(s: State, v: nat)
    requires v < |s.versions|
    ensures Seen(Apply(s, Forget), v) <==>
            forall id | id in s.loads && s.loads[id].Carrying? :: s.loads[id].origin.version >= v
  {
    var after := Apply(s, Forget);
    if NothingOlder(after, v) {
      forall steps | CanRun(after, steps) ensures AnswersFrom(after, steps, v) {
        NothingOlderIsAnswered(after, steps, v, |after.replies|);
      }
    } else {
      var id :| id in after.loads && after.loads[id].Carrying? && after.loads[id].origin.version < v;
      var steps := [Finish(id)];
      FirstStep(after, Finish(id), []);
      assert steps == [Finish(id)] + [];
      assert !AnswersFrom(after, steps, v) by {
        assert Final(after, steps).replies[|after.replies|].origin.version < v;
      }
    }
  }

  lemma FirstStep(s: State, step: Step, rest: seq<Step>)
    requires Enabled(s, step) && CanRun(Apply(s, step), rest)
    ensures CanRun(s, [step] + rest) && Final(s, [step] + rest) == Final(Apply(s, step), rest)
  {
    assert ([step] + rest)[1..] == rest;
  }

  /** A load that straddles an update brings the old row back, and the next lookup is answered with it. */
  lemma StraddlingLoadHidesAnUpdate(previous: Row, updated: Row)
    ensures
      var steps := [Look(0)] + ([Read(0)] + ([Write(updated)] + ([Forget] + ([Finish(0)] + ([Look(1)] + [])))));
      && CanRun(Start(previous), steps)
      && var s := Final(Start(previous), steps);
      && |s.versions| == 2 && s.versions[1].row == updated
      && |s.replies| == 2 && s.replies[1].row == previous
  {
    var s0 := Start(previous);
    var s1 := Apply(s0, Look(0));
    var s2 := Apply(s1, Read(0));
    var s3 := Apply(s2, Write(updated));
    var s4 := Apply(s3, Forget);
    var s5 := Apply(s4, Finish(0));
    FirstStep(s5, Look(1), []);
    FirstStep(s4, Finish(0), [Look(1)] + []);
    FirstStep(s3, Forget, [Finish(0)] + ([Look(1)] + []));
    FirstStep(s2, Write(updated), [Forget] + ([Finish(0)] + ([Look(1)] + [])));
    FirstStep(s1, Read(0), [Write(updated)] + ([Forget] + ([Finish(0)] + ([Look(1)] + []))));
    FirstStep(s0, Look(0), [Read(0)] + ([Write(updated)] + ([Forget] + ([Finish(0)] + ([Look(1)] + [])))));
    hide CanRun, Final;
  }
}
