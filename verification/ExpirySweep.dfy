/**
 The hourly sweep of expired boards, a batch at a time: each board of a batch
 is evicted from memory, then the batch is deleted. Other requests may create
 boards while a batch is under way; those expire later than the sweep's `now`.
*/
module ExpirySweep {
  import opened Prelude

  type BoardId = string

  const BATCH_SIZE: nat := 100

  /** The boards table, as far as the sweep sees it: when each board expires. */
  type Boards = map<BoardId, nat>

  datatype Event = Evict(id: BoardId) | Delete(ids: seq<BoardId>)

  function Due(boards: Boards, now: nat): set<BoardId> {
    set id | id in boards && boards[id] <= now
  }

  predicate Distinct(ids: seq<BoardId>) {
    forall i, j | 0 <= i < j < |ids| :: ids[i] != ids[j]
  }

  function Ids(ids: seq<BoardId>): set<BoardId> {
    set id | id in ids
  }

  function When(boards: Boards, id: BoardId): nat {
    if id in boards then boards[id] else 0
  }

  predicate Sorted(boards: Boards, ids: seq<BoardId>) {
    forall i, j | 0 <= i < j < |ids| :: When(boards, ids[i]) <= When(boards, ids[j])
  }

  predicate Before(boards: Boards, ids: seq<BoardId>, rest: set<BoardId>) {
    forall id, other | id in ids && other in rest :: When(boards, id) <= When(boards, other)
  }

  /** `ids` are the `limit` oldest boards that are due, oldest first and ties in any order. */
  ghost predicate Oldest(boards: Boards, now: nat, limit: nat, ids: seq<BoardId>) {
    && Distinct(ids) && Ids(ids) <= Due(boards, now)
    && |ids| == Min(limit, |Due(boards, now)|)
    && Sorted(boards, ids) && Before(boards, ids, Due(boards, now) - Ids(ids))
  }

  lemma {:induction false} DistinctSize(ids: seq<BoardId>)
    requires Distinct(ids)
    ensures |Ids(ids)| == |ids|
  {
    if ids != [] {
      var last := |ids| - 1;
      DistinctSize(ids[..last]);
      assert ids == ids[..last] + [ids[last]];
      assert Ids(ids) == Ids(ids[..last]) + {ids[last]};
    }
  }

  lemma {:induction false} OldestExists(boards: Boards, ids: set<BoardId>)
    requires ids != {} && ids <= boards.Keys
    ensures exists id :: id in ids && Before(boards, [id], ids)
    decreases |ids|
  {
    var some :| some in ids;
    if ids == {some} {
      assert Before(boards, [some], ids);
    } else {
      OldestExists(boards, ids - {some});
      var id :| id in ids - {some} && Before(boards, [id], ids - {some});
      var best := if When(boards, id) <= When(boards, some) then id else some;
      assert Before(boards, [best], ids) by {
        forall other | other in ids ensures When(boards, best) <= When(boards, other) {
          assert id in [id];
        }
      }
    }
  }

  lemma TakeOldest(boards: Boards, ids: seq<BoardId>, rest: set<BoardId>, id: BoardId)
    requires Distinct(ids) && Sorted(boards, ids) && Before(boards, ids, rest) && Ids(ids) !! rest
    requires id in rest && Before(boards, [id], rest)
    ensures Distinct(ids + [id]) && Sorted(boards, ids + [id]) && Before(boards, ids + [id], rest - {id})
    ensures Ids(ids + [id]) == Ids(ids) + {id}
  {
    forall i | 0 <= i < |ids| ensures ids[i] != id {
      assert ids[i] in Ids(ids);
    }
    forall x, other | x in ids + [id] && other in rest - {id} ensures When(boards, x) <= When(boards, other) {
      assert x in ids || x in [id];
    }
  }

  /** Every board that goes was evicted earlier. */
  ghost predicate EvictedFirst(log: seq<Event>) {
    forall i | 0 <= i < |log| && log[i].Delete? :: forall id | id in log[i].ids :: Evict(id) in log[..i]
  }

  /** What is created while round `k` of the sweep waits. */
  function Arriving(arrivals: seq<Boards>, k: nat): Boards {
    if k < |arrivals| then arrivals[k] else map[]
  }

  function AllArriving(arrivals: seq<Boards>, k: nat): Boards {
    if k == 0 then map[] else AllArriving(arrivals, k - 1) + Arriving(arrivals, k - 1)
  }

  ghost predicate Later(boards: Boards, arrivals: seq<Boards>, now: nat) {
    forall k: nat :: forall id | id in Arriving(arrivals, k) :: Arriving(arrivals, k)[id] > now && id !in boards
  }

  lemma WholeBatch(ids: seq<BoardId>, due: set<BoardId>)
    requires Distinct(ids) && Ids(ids) <= due && |ids| >= |due|
    ensures Ids(ids) == due
  {
    DistinctSize(ids);
    var left := due - Ids(ids);
    assert due == Ids(ids) + left;
    assert |due| == |Ids(ids)| + |left|;
  }

  lemma ArrivalsExpireLater(boards: Boards, arrivals: seq<Boards>, now: nat, k: nat)
    requires Later(boards, arrivals, now)
    ensures forall id | id in AllArriving(arrivals, k) :: AllArriving(arrivals, k)[id] > now && id !in boards
  {
  }

  lemma EvictionsFirst(log: seq<Event>, ids: seq<BoardId>)
    requires EvictedFirst(log)
    ensures EvictedFirst(log + Evictions(ids) + [Delete(ids)])
  {
    var all := log + Evictions(ids) + [Delete(ids)];
    forall i, id | 0 <= i < |all| && all[i].Delete? && id in all[i].ids ensures Evict(id) in all[..i] {
      if i < |log| {
        assert Evict(id) in log[..i] && all[..i] == log[..i];
      } else {
        var j :| 0 <= j < |ids| && ids[j] == id;
        assert all[|log| + j] == Evict(id);
      }
    }
  }

  function Evictions(ids: seq<BoardId>): seq<Event> {
    seq(|ids|, i requires 0 <= i < |ids| => Evict(ids[i]))
  }

  /** The table after `round` batches, which took `gone`. */
  ghost predicate AfterRounds(start: Boards, arrivals: seq<Boards>, now: nat, round: nat, gone: set<BoardId>,
                              boards: Boards)
  {
    && gone <= Due(start, now)
    && boards == start - gone + AllArriving(arrivals, round)
  }

  lemma DueThen(start: Boards, arrivals: seq<Boards>, now: nat, round: nat, gone: set<BoardId>, boards: Boards)
    requires Later(start, arrivals, now) && AfterRounds(start, arrivals, now, round, gone, boards)
    ensures Due(boards, now) == Due(start, now) - gone
    ensures |Due(start, now)| == |gone| + |Due(boards, now)|
    ensures |Due(boards, now)| == 0 ==> gone == Due(start, now)
  {
    ArrivalsExpireLater(start, arrivals, now, round);
    assert Due(boards, now) == Due(start, now) - gone;
    assert Due(start, now) == gone + Due(boards, now);
  }

  /** Once everything due is gone, what is left of the start expires later than `now`, and all of that is left. */
  lemma OnlyDueGo(start: Boards, arrivals: seq<Boards>, now: nat, round: nat, gone: set<BoardId>, boards: Boards)
    requires Later(start, arrivals, now) && AfterRounds(start, arrivals, now, round, gone, boards)
    requires gone == Due(start, now)
    ensures forall id | id in start :: id in boards <==> start[id] > now
  {
    ArrivalsExpireLater(start, arrivals, now, round);
  }

  lemma NothingGone(start: Boards, arrivals: seq<Boards>, now: nat)
    ensures AfterRounds(start, arrivals, now, 0, {}, start)
  {
    assert start - {} + map[] == start;
  }

  lemma Rearranged(start: Boards, gone: set<BoardId>, earlier: Boards, arriving: Boards, ids: set<BoardId>)
    requires earlier.Keys !! ids && arriving.Keys !! ids
    ensures start - gone + earlier + arriving - ids == start - (gone + ids) + (earlier + arriving)
  {
  }

  lemma Swept(start: Boards, arrivals: seq<Boards>, now: nat, round: nat, gone: set<BoardId>, boards: Boards,
              ids: seq<BoardId>)
    requires Later(start, arrivals, now) && AfterRounds(start, arrivals, now, round, gone, boards)
    requires Oldest(boards, now, BATCH_SIZE, ids)
    ensures AfterRounds(start, arrivals, now, round + 1, gone + Ids(ids), boards + Arriving(arrivals, round) - Ids(ids))
    ensures |gone + Ids(ids)| == |gone| + |ids|
    ensures |ids| < BATCH_SIZE ==> gone + Ids(ids) == Due(start, now)
  {
    DueThen(start, arrivals, now, round, gone, boards);
    ArrivalsExpireLater(start, arrivals, now, round + 1);
    ArrivalsExpireLater(start, arrivals, now, round);
    DistinctSize(ids);
    Rearranged(start, gone, AllArriving(arrivals, round), Arriving(arrivals, round), Ids(ids));
    assert gone !! Ids(ids);
    if |ids| < BATCH_SIZE {
      WholeBatch(ids, Due(boards, now));
    }
    hide Later, Due, Sorted, Before, Ids;
  }

  class BoardExpiryService {
    var boards: Boards
    ghost var log: seq<Event>

    method FindExpiredIds(now: nat, limit: nat) returns (ids: seq<BoardId>)
      ensures Oldest(boards, now, limit, ids)
    {
      ids := [];
      var rest := set id | id in boards && boards[id] <= now;
      while |ids| < limit && rest != {}
        invariant Ids(ids) !! rest && Ids(ids) + rest == Due(boards, now)
        invariant |ids| <= limit && Distinct(ids)
        invariant Sorted(boards, ids) && Before(boards, ids, rest)
        decreases |rest|
      {
        OldestExists(boards, rest);
        var id :| id in rest && Before(boards, [id], rest);
        TakeOldest(boards, ids, rest, id);
        ids := ids + [id];
        rest := rest - {id};
      }
      DistinctSize(ids);
      assert rest == Due(boards, now) - Ids(ids);
    }

    method DeleteByIds(ids: seq<BoardId>)
      modifies this`boards, this`log
      ensures boards == old(boards) - Ids(ids)
      ensures log == if ids == [] then old(log) else old(log) + [Delete(ids)]
    {
      if |ids| == 0 {
        return;
      }
      boards := boards - set id | id in ids;
      log := log + [Delete(ids)];
    }

    /** One batch: evict each board, then delete them all. */
    method SweepBatch(ids: seq<BoardId>, arriving: Boards)
      requires ids != [] && EvictedFirst(log)
      modifies this
      ensures boards == old(boards) + arriving - Ids(ids)
      ensures log == old(log) + Evictions(ids) + [Delete(ids)] && EvictedFirst(log)
    {
      for i := 0 to |ids|
        invariant boards == old(boards) && log == old(log) + Evictions(ids[..i])
      {
        log := log + [Evict(ids[i])];
        assert Evictions(ids[..i + 1]) == Evictions(ids[..i]) + [Evict(ids[i])];
      }
      assert ids[..|ids|] == ids;
      EvictionsFirst(old(log), ids);
      boards := boards + arriving;
      DeleteByIds(ids);
    }

    /**
     Deletes every board due at `now` and nothing else, each evicted first;
     returns how many. It asks once per full batch and once more, also when
     the boards fill the last batch exactly.
    */
    method DeleteExpired(now: nat, arrivals: seq<Boards>) returns (deleted: nat, queries: nat)
      requires Later(boards, arrivals, now) && EvictedFirst(log)
      modifies this
      ensures deleted == |Due(old(boards), now)|
      ensures forall id | id in old(boards) :: id in boards <==> old(boards)[id] > now
      ensures queries == deleted / BATCH_SIZE + 1
      ensures AfterRounds(old(boards), arrivals, now, (deleted + BATCH_SIZE - 1) / BATCH_SIZE,
                          Due(old(boards), now), boards)
      ensures EvictedFirst(log)
    {
      hide Later, Due, Sorted, Before, Distinct, Ids, EvictedFirst, Evictions, AfterRounds, AllArriving, Arriving;
      deleted, queries := 0, 0;
      NothingGone(boards, arrivals, now);
      ghost var start, gone := boards, {};
      while true
        invariant |gone| == deleted == BATCH_SIZE * queries
        invariant AfterRounds(start, arrivals, now, queries, gone, boards)
        invariant EvictedFirst(log)
        decreases |Due(boards, now)|
      {
        var ids := FindExpiredIds(now, BATCH_SIZE);
        DueThen(start, arrivals, now, queries, gone, boards);
        queries := queries + 1;
        if |ids| == 0 {
          OnlyDueGo(start, arrivals, now, queries - 1, gone, boards);
          return;
        }
        Swept(start, arrivals, now, queries - 1, gone, boards, ids);
        SweepBatch(ids, Arriving(arrivals, queries - 1));
        deleted := deleted + |ids|;
        gone := gone + Ids(ids);
        DueThen(start, arrivals, now, queries, gone, boards);
        if |ids| < BATCH_SIZE {
          OnlyDueGo(start, arrivals, now, queries, gone, boards);
          return;
        }
      }
    }
  }
}
