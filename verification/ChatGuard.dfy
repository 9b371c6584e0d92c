/**
 The flood guard on a socket's chat. It remembers only sends younger than the
 window, which over the whole life of the connection refuses exactly what a
 guard that remembers every send would. The clock is taken not to run backwards.
*/
module ChatGuard {
  const BURST: nat := 5
  const WINDOW_MS: nat := 10000

  function Recent(sentAt: seq<nat>, now: nat): seq<nat> {
    if sentAt == [] then []
    else if now - sentAt[0] < WINDOW_MS then [sentAt[0]] + Recent(sentAt[1..], now)
    else Recent(sentAt[1..], now)
  }

  ghost predicate InOrder(times: seq<nat>, now: nat) {
    && (forall i, j | 0 <= i < j < |times| :: times[i] <= times[j])
    && (forall i | 0 <= i < |times| :: times[i] <= now)
  }

  /** Any send and the one BURST sends before it are at least a window apart. */
  ghost predicate Spaced(sent: seq<nat>) {
    forall i | 0 <= i && i + BURST < |sent| :: sent[i + BURST] - sent[i] >= WINDOW_MS
  }

  lemma OrderGrows(times: seq<nat>, now: nat)
    requires InOrder(times, now)
    ensures InOrder(times + [now], now)
    ensures (times + [now])[..|times|] == times
  {
  }

  /** What is recent is the tail from the first send younger than the window. */
  lemma {:induction false} RecentIsATail(sent: seq<nat>, now: nat)
    requires InOrder(sent, now)
    ensures |Recent(sent, now)| <= |sent|
    ensures Recent(sent, now) == sent[|sent| - |Recent(sent, now)|..]
    ensures forall i | 0 <= i < |sent| :: now - sent[i] < WINDOW_MS <==> |sent| - |Recent(sent, now)| <= i
  {
    if sent != [] {
      var tail := sent[1..];
      var recent := Recent(tail, now);
      RecentIsATail(tail, now);
      if now - sent[0] < WINDOW_MS && tail != [] {
        assert sent[0] <= sent[1] == tail[0];
        assert |recent| == |tail|;
      }
      var skipped := |sent| - |Recent(sent, now)|;
      assert Recent(sent, now) == if now - sent[0] < WINDOW_MS then [sent[0]] + recent else recent;
      forall i | 0 <= i < |sent| ensures now - sent[i] < WINDOW_MS <==> skipped <= i {
        if i > 0 {
          assert sent[i] == tail[i - 1];
        }
      }
    }
  }

  /** Forgetting twice is forgetting once. */
  lemma {:induction false} RecentOfRecent(sent: seq<nat>, before: nat, now: nat)
    requires before <= now
    ensures Recent(Recent(sent, before), now) == Recent(sent, now)
  {
    if sent != [] {
      RecentOfRecent(sent[1..], before, now);
    }
  }

  lemma {:induction false} RecentAppend(sent: seq<nat>, now: nat)
    ensures Recent(sent + [now], now) == Recent(sent, now) + [now]
  {
    if sent == [] {
      assert sent + [now] == [now];
      assert [now][1..] == [];
    } else {
      RecentAppend(sent[1..], now);
      assert (sent + [now])[1..] == sent[1..] + [now];
    }
  }

  lemma SendKeepsSpacing(sent: seq<nat>, now: nat)
    requires InOrder(sent, now) && Spaced(sent) && |Recent(sent, now)| < BURST
    ensures Spaced(sent + [now]) && InOrder(sent + [now], now)
  {
    RecentIsATail(sent, now);
    if |sent| >= BURST {
      assert now - sent[|sent| - BURST] >= WINDOW_MS;
    }
  }

  // ---- The life of a connection ----

  /** The list the guard holds after messages at these times. */
  function Kept(times: seq<nat>): seq<nat> {
    if times == [] then []
    else
      var now := times[|times| - 1];
      var recent := Recent(Kept(times[..|times| - 1]), now);
      if |recent| < BURST then recent + [now] else recent
  }

  /** The messages it let through. */
  function Sent(times: seq<nat>): seq<nat> {
    if times == [] then []
    else
      var now := times[|times| - 1];
      var earlier := times[..|times| - 1];
      if |Recent(Kept(earlier), now)| < BURST then Sent(earlier) + [now] else Sent(earlier)
  }

  lemma {:induction false} ForgettingIsHarmless(times: seq<nat>, now: nat)
    requires InOrder(times, now)
    ensures InOrder(Sent(times), now) && Spaced(Sent(times))
    ensures Recent(Kept(times), now) == Recent(Sent(times), now)
  {
    if times != [] {
      var last := times[|times| - 1];
      var earlier := times[..|times| - 1];
      ForgettingIsHarmless(earlier, last);
      var kept, sent := Kept(earlier), Sent(earlier);
      if |Recent(kept, last)| < BURST {
        SendKeepsSpacing(sent, last);
        RecentAppend(sent, last);
        RecentOfRecent(sent + [last], last, now);
      } else {
        RecentOfRecent(sent, last, now);
      }
    }
  }

  /** A message is refused exactly when BURST messages got through within the window before it. */
  lemma RefusedExactly(times: seq<nat>, now: nat)
    requires InOrder(times, now)
    ensures
      var sent := Sent(times);
      Sent(times + [now]) == sent <==> |sent| >= BURST && now - sent[|sent| - BURST] < WINDOW_MS
  {
    ForgettingIsHarmless(times, now);
    RecentIsATail(Sent(times), now);
    OrderGrows(times, now);
  }

  /** Over the whole connection, BURST or more sends apart means a window or more apart. */
  lemma NeverAFlood(times: seq<nat>, now: nat, i: nat, j: nat)
    requires InOrder(times, now) && i < j < |Sent(times)|
    ensures j - i >= BURST ==> Sent(times)[j] - Sent(times)[i] >= WINDOW_MS
  {
    ForgettingIsHarmless(times, now);
    if j - i >= BURST {
      assert Sent(times)[i + BURST] - Sent(times)[i] >= WINDOW_MS;
    }
  }

  // ---- The socket's data ----

  class SocketData {
    var chatSentAt: seq<nat>
    /** When each message of this connection was asked about. */
    ghost var asked: seq<nat>

    ghost predicate Valid()
      reads this
    {
      chatSentAt == Kept(asked)
    }

    constructor ()
      ensures Valid() && asked == []
    {
      chatSentAt := [];
      asked := [];
    }

    method AllowChat(now: nat) returns (allowed: bool)
      requires Valid() && InOrder(asked, now)
      modifies this
      ensures Valid() && asked == old(asked) + [now] && InOrder(asked, now)
      ensures Sent(asked) == if allowed then Sent(old(asked)) + [now] else Sent(old(asked))
      ensures Spaced(Sent(asked))
    {
      hide Recent, Spaced, InOrder;
      OrderGrows(asked, now);
      asked := asked + [now];
      ForgettingIsHarmless(asked, now);
      chatSentAt := Recent(chatSentAt, now);
      if |chatSentAt| >= BURST {
        return false;
      }
      chatSentAt := chatSentAt + [now];
      return true;
    }
  }
}
