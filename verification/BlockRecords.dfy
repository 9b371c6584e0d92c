/**
 Hard blocks of IP addresses. A block is kept three times over: the guard's
 own key, a key with details for the admin console, and an index set. Strikes
 build up in a counter of their own. Each operation is taken as one step of
 Redis; keys live through the millisecond of their expiry. Durations are whole
 seconds, times are milliseconds.
*/
module BlockRecords {
  import opened Prelude

  /** A Redis value with an expiry. */
  datatype Stored<T> = Stored(value: T, until: nat)

  /** What `hard_block:{ip}` holds; `blockedAt` and `expiresAt` are in seconds. */
  datatype Details = Details(
    blockedAt: nat,
    blockDuration: nat,
    expiresAt: nat,
    userAgent: string,
    strikes: nat,
    reason: Option<string>)

  /** What `ip_whitelist:{ip}` holds; `addedAt` is in seconds. */
  datatype Note = Note(addedAt: nat, reason: Option<string>)

  /** Everything Redis holds about one IP. */
  datatype Record = Record(
    blocked: Option<Stored<()>>,
    details: Option<Stored<Details>>,
    indexed: bool,
    strikes: Option<Stored<nat>>,
    whitelisted: bool,
    note: Option<Note>)

  const Blank := Record(None, None, false, None, false, None)

  function Live<T>(key: Option<Stored<T>>, now: nat): Option<Stored<T>> {
    if key.Some? && now > key.value.until then None else key
  }

  function Until<T>(key: Option<Stored<T>>, now: nat): Option<nat> {
    var live := Live(key, now);
    if live.Some? then Some(live.value.until) else None
  }

  function Expiry(now: nat, seconds: nat): nat {
    now + seconds * 1000
  }

  function Describe(now: nat, seconds: nat, userAgent: string, strikes: nat, reason: Option<string>): Details {
    Details(now / 1000, seconds, now / 1000 + seconds, userAgent, strikes, reason)
  }

  // ---- The operations on one IP ----

  datatype Op =
    | Strike(strikesCount: nat, seconds: nat, userAgent: string)
    | Block(seconds: nat, userAgent: string, reason: Option<string>)
    | Lift
    | Change(seconds: nat)
    | Tidy
    | Whitelist(reason: Option<string>)
    | Unwhitelist
    | TidyWhitelist

  /** The guard turns the request away before any counting. */
  predicate Refused(r: Record, now: nat) {
    !r.whitelisted && (Live(r.blocked, now).Some? || Live(r.details, now).Some?)
  }

  function Counted(strikes: Option<Stored<nat>>, seconds: nat, now: nat): Stored<nat> {
    var live := Live(strikes, now);
    if live.Some? then Stored(live.value.value + 1, live.value.until) else Stored(1, Expiry(now, seconds))
  }

  function Blocked(r: Record, details: Details, now: nat, seconds: nat): Record {
    r.(blocked := Some(Stored((), Expiry(now, seconds))),
       details := Some(Stored(details, Expiry(now, seconds))),
       indexed := true)
  }

  function Changed(details: Details, now: nat, seconds: nat): Details {
    details.(blockDuration := seconds, expiresAt := now / 1000 + seconds)
  }

  function After(r: Record, op: Op, now: nat): Record {
    match op
    case Strike(strikesCount, seconds, userAgent) =>
      var counted := Counted(r.strikes, seconds, now);
      if counted.value >= strikesCount
      then Blocked(r, Describe(now, seconds, userAgent, counted.value, None), now, seconds).(strikes := None)
      else r.(strikes := Some(counted))
    case Block(seconds, userAgent, reason) => Blocked(r, Describe(now, seconds, userAgent, 0, reason), now, seconds)
    case Lift => r.(blocked := None, details := None, strikes := None, indexed := false)
    case Change(seconds) =>
      var live := Live(r.details, now);
      if live.None? then r
      else r.(details := Some(Stored(Changed(live.value.value, now, seconds), Expiry(now, seconds))),
              blocked := if Live(r.blocked, now).Some? then Some(Stored((), Expiry(now, seconds))) else r.blocked)
    case Tidy => r.(indexed := r.indexed && Live(r.details, now).Some?)
    case Whitelist(reason) => r.(whitelisted := true, note := Some(Note(now / 1000, reason)))
    case Unwhitelist => r.(whitelisted := false, note := None)
    case TidyWhitelist => r.(whitelisted := r.whitelisted && r.note.Some?)
  }

  // ---- The same operations on the keys in Redis ----

  datatype Listed = Listed(details: Details, ttl: nat)

  function Get<T>(keys: map<string, Stored<T>>, ip: string): Option<Stored<T>> {
    if ip in keys then Some(keys[ip]) else None
  }

  class BlockStore {
    var blocked: map<string, Stored<()>>
    var details: map<string, Stored<Details>>
    var strikes: map<string, Stored<nat>>
    var index: set<string>
    var whitelist: set<string>
    var notes: map<string, Note>

    constructor ()
      ensures forall ip :: Of(ip) == Blank
    {
      blocked, details, strikes, index := map[], map[], map[], {};
      whitelist, notes := {}, map[];
    }

    ghost function Of(ip: string): Record
      reads this
    {
      Record(Get(blocked, ip), Get(details, ip), ip in index, Get(strikes, ip), ip in whitelist,
             if ip in notes then Some(notes[ip]) else None)
    }

    /** The step happened to `ip` and to no other address. */
    twostate predicate Stepped(ip: string, op: Op, now: nat)
      reads this
    {
      && Of(ip) == After(old(Of(ip)), op, now)
      && (forall other | other != ip :: Of(other) == old(Of(other)))
    }

    /** The guard's `canActivate`, before the ordinary throttling. */
    method CanActivate(ip: string, now: nat) returns (refused: bool)
      ensures refused == Refused(Of(ip), now)
      ensures refused <==>
              && ip !in whitelist
              && ((ip in blocked && now <= blocked[ip].until) || (ip in details && now <= details[ip].until))
    {
      if ip in whitelist {
        return false;
      }
      var legacyBlocked := Live(Get(blocked, ip), now);
      var metaBlocked := Live(Get(details, ip), now);
      refused := legacyBlocked.Some? || metaBlocked.Some?;
    }

    /** `throwThrottlingException`: one more strike, and a block when there are enough. */
    method ThrowThrottlingException(ip: string, strikesCount: nat, seconds: nat, userAgent: string, now: nat)
      returns (shouldBlock: bool)
      requires seconds > 0
      modifies this
      ensures Stepped(ip, Strike(strikesCount, seconds, userAgent), now)
      ensures unchanged(`whitelist) && unchanged(`notes)
      ensures shouldBlock ==> Get(blocked, ip) == Some(Stored((), Expiry(now, seconds))) && ip !in strikes
      ensures !shouldBlock ==> Get(blocked, ip) == old(Get(blocked, ip))
      ensures !shouldBlock ==> ip in strikes && strikes[ip].value < strikesCount
      ensures shouldBlock ==> ip in index && ip in details && details[ip].until == Expiry(now, seconds)
    {
      hide Describe, Expiry;
      var live := Live(Get(strikes, ip), now);
      var count := if live.Some? then live.value.value + 1 else 1;
      strikes := strikes[ip := if live.Some? then Stored(count, live.value.until) else Stored(1, Expiry(now, seconds))];
      shouldBlock := count >= strikesCount;
      if shouldBlock {
        blocked := blocked[ip := Stored((), Expiry(now, seconds))];
        details := details[ip := Stored(Describe(now, seconds, userAgent, count, None), Expiry(now, seconds))];
        index := index + {ip};
        strikes := strikes - {ip};
      }
    }

    method ManualBlockIp(ip: string, seconds: nat, userAgent: string, reason: Option<string>, now: nat)
      returns (entry: Listed)
      requires seconds > 0
      modifies this
      ensures Stepped(ip, Block(seconds, userAgent, reason), now)
      ensures unchanged(`strikes) && unchanged(`whitelist) && unchanged(`notes)
      ensures ip in details && details[ip].value == entry.details && entry.ttl * 1000 == details[ip].until - now
      ensures ip in blocked && ip in index && blocked[ip].until == details[ip].until == now + seconds * 1000
      ensures entry.details == Details(now / 1000, seconds, now / 1000 + seconds, userAgent, 0, reason)
    {
      entry := Listed(Describe(now, seconds, userAgent, 0, reason), seconds);
      details := details[ip := Stored(entry.details, Expiry(now, seconds))];
      blocked := blocked[ip := Stored((), Expiry(now, seconds))];
      index := index + {ip};
    }

    method RemoveIpBlock(ip: string, now: nat)
      modifies this
      ensures Stepped(ip, Lift, now)
      ensures unchanged(`whitelist) && unchanged(`notes)
      ensures !Refused(Of(ip), now)
      ensures ip !in blocked && ip !in details && ip !in strikes && ip !in index
    {
      details := details - {ip};
      blocked := blocked - {ip};
      strikes := strikes - {ip};
      index := index - {ip};
    }

    /** `getHardBlockEntry`: the details with their remaining time rounded up to seconds. */
    function HardBlockEntry(ip: string, now: nat): (entry: Option<Listed>)
      reads this`details
      ensures entry.Some? <==> Live(Get(details, ip), now).Some?
      ensures entry.Some? ==> details[ip].until <= now + entry.value.ttl * 1000 < details[ip].until + 1000
    {
      var live := Live(Get(details, ip), now);
      if live.None? then None else Some(Listed(live.value.value, (live.value.until - now + 999) / 1000))
    }

    method UpdateBlockDuration(ip: string, seconds: nat, now: nat) returns (entry: Option<Listed>)
      requires seconds > 0
      modifies this
      ensures Stepped(ip, Change(seconds), now)
      ensures unchanged(`strikes) && unchanged(`index) && unchanged(`whitelist) && unchanged(`notes)
      ensures entry.Some? == old(Live(Get(details, ip), now)).Some?
      ensures entry.Some? ==> ip in details && details[ip] == Stored(entry.value.details, now + entry.value.ttl * 1000)
      ensures entry.Some? ==>
                && entry.value.ttl == entry.value.details.blockDuration == seconds
                && entry.value.details.expiresAt == now / 1000 + seconds
                && entry.value.details.blockedAt == old(details)[ip].value.blockedAt
                && (ip in blocked && now <= old(blocked)[ip].until ==> blocked[ip].until == details[ip].until)
    {
      var found := HardBlockEntry(ip, now);
      if found.None? {
        return None;
      }
      entry := Some(Listed(Changed(found.value.details, now, seconds), seconds));
      details := details[ip := Stored(entry.value.details, Expiry(now, seconds))];
      if Live(Get(blocked, ip), now).Some? {
        blocked := blocked[ip := Stored((), Expiry(now, seconds))];
      }
    }

    /** Lists the blocks in force and drops the rest from the index. */
    method GetHardBlockedIps(now: nat) returns (entries: map<string, Listed>)
      modifies this`index
      ensures forall ip :: Of(ip) == After(old(Of(ip)), Tidy, now)
      ensures entries.Keys == index
      ensures forall ip | ip in entries :: HardBlockEntry(ip, now) == Some(entries[ip])
    {
      hide HardBlockEntry, Live, Get;
      entries := map[];
      var ips, staleIps := index, {};
      while ips != {}
        invariant ips <= index && entries.Keys <= index
        invariant staleIps == index - ips - entries.Keys
        invariant forall ip | ip in entries :: HardBlockEntry(ip, now) == Some(entries[ip])
        invariant forall ip | ip in staleIps :: HardBlockEntry(ip, now).None?
        decreases |ips|
      {
        var ip :| ip in ips;
        var entry := HardBlockEntry(ip, now);
        if entry.Some? {
          entries := entries[ip := entry.value];
        } else {
          staleIps := staleIps + {ip};
        }
        ips := ips - {ip};
      }
      assert forall ip | ip in index :: ip in staleIps <==> Live(Get(details, ip), now).None?;
      index := index - staleIps;
    }

    /** The half-hourly pruning of the index. */
    method PruneExpiredBlockIndex(now: nat)
      modifies this`index
      ensures forall ip :: Of(ip) == After(old(Of(ip)), Tidy, now)
    {
      var ips, staleIps := index, {};
      while ips != {}
        invariant ips <= index && staleIps <= index - ips
        invariant forall ip | ip in index - ips :: ip in staleIps <==> Live(Get(details, ip), now).None?
        decreases |ips|
      {
        var ip :| ip in ips;
        if Live(Get(details, ip), now).None? {
          staleIps := staleIps + {ip};
        }
        ips := ips - {ip};
      }
      index := index - staleIps;
    }

    /** A permanent entry: the note, and the set that decides requests. */
    method AddIpWhitelist(ip: string, reason: Option<string>, now: nat) returns (entry: Note)
      modifies this
      ensures Stepped(ip, Whitelist(reason), now)
      ensures unchanged(`blocked) && unchanged(`details) && unchanged(`index) && unchanged(`strikes)
      ensures !Refused(Of(ip), now) && ip in notes && notes[ip] == entry
    {
      entry := Note(now / 1000, reason);
      notes := notes[ip := entry];
      whitelist := whitelist + {ip};
    }

    method RemoveIpWhitelist(ip: string, now: nat)
      modifies this
      ensures Stepped(ip, Unwhitelist, now)
      ensures unchanged(`blocked) && unchanged(`details) && unchanged(`index) && unchanged(`strikes)
      ensures ip !in whitelist && ip !in notes
    {
      notes := notes - {ip};
      whitelist := whitelist - {ip};
    }

    /** Lists the whitelist, dropping addresses without a note; newest first is left to the reader of the map. */
    method GetWhitelistedIps(now: nat) returns (entries: map<string, Note>)
      modifies this`whitelist
      ensures forall ip :: Of(ip) == After(old(Of(ip)), TidyWhitelist, now)
      ensures entries.Keys == whitelist && forall ip | ip in entries :: ip in notes && notes[ip] == entries[ip]
    {
      entries := map[];
      var ips, staleIps := whitelist, {};
      while ips != {}
        invariant ips <= whitelist && entries.Keys <= whitelist
        invariant staleIps == whitelist - ips - entries.Keys
        invariant forall ip | ip in entries :: ip in notes && notes[ip] == entries[ip]
        invariant forall ip | ip in staleIps :: ip !in notes
        decreases |ips|
      {
        var ip :| ip in ips;
        if ip in notes {
          entries := entries[ip := notes[ip]];
        } else {
          staleIps := staleIps + {ip};
        }
        ips := ips - {ip};
      }
      whitelist := whitelist - staleIps;
    }
  }

  // ---- Runs ----

  datatype Event = Event(at: nat, op: Op)

  function Run(r: Record, events: seq<Event>): Record {
    if events == [] then r
    else
      var last := |events| - 1;
      After(Run(r, events[..last]), events[last].op, events[last].at)
  }

  /** The clock does not run backwards, and `now` is not before the last event. */
  ghost predicate InOrder(events: seq<Event>, now: nat) {
    && (forall i, j | 0 <= i < j < |events| :: events[i].at <= events[j].at)
    && (events != [] ==> events[|events| - 1].at <= now)
  }

  // ---- The three records agree ----

  /** The details tell the second in which the block ends, and never a start in the future. */
  predicate WellDated(details: Stored<Details>, now: nat) {
    && details.value.expiresAt * 1000 <= details.until < details.value.expiresAt * 1000 + 1000
    && details.value.blockedAt * 1000 <= now
  }

  predicate Agree(r: Record, now: nat) {
    && Until(r.blocked, now) == Until(r.details, now)
    && (Live(r.details, now).Some? ==> r.indexed && WellDated(r.details.value, now))
    && (r.whitelisted <==> r.note.Some?)
  }

  lemma StepKeepsAgreement(r: Record, op: Op, before: nat, now: nat)
    requires Agree(r, before) && before <= now
    ensures Agree(After(r, op, now), now)
  {
    assert Agree(r, now);
  }

  /**
   Whatever the guard and the admins did: both keys live until the same moment or
   neither does, and a live block is indexed.
  */
  lemma {:induction false} RecordsAgree(events: seq<Event>, now: nat)
    requires InOrder(events, now)
    ensures Agree(Run(Blank, events), now)
  {
    if events != [] {
      var last := |events| - 1;
      var before := if last > 0 then events[last - 1].at else 0;
      RecordsAgree(events[..last], before);
      StepKeepsAgreement(Run(Blank, events[..last]), events[last].op, before, events[last].at);
    }
  }

  // ---- The guard refines one map from IP to expiry ----

  /** All a guard needs to know of one IP. */
  datatype Plain = Plain(until: Option<nat>, strikes: Option<Stored<nat>>, whitelisted: bool)

  const Unknown := Plain(None, None, false)

  predicate InForce(p: Plain, now: nat) {
    p.until.Some? && now <= p.until.value
  }

  function PlainAfter(p: Plain, op: Op, now: nat): Plain {
    match op
    case Strike(strikesCount, seconds, _) =>
      var counted := Counted(p.strikes, seconds, now);
      if counted.value >= strikesCount then p.(until := Some(Expiry(now, seconds)), strikes := None)
      else p.(strikes := Some(counted))
    case Block(seconds, _, _) => p.(until := Some(Expiry(now, seconds)))
    case Lift => p.(until := None, strikes := None)
    case Change(seconds) => if InForce(p, now) then p.(until := Some(Expiry(now, seconds))) else p
    case Tidy => p
    case Whitelist(_) => p.(whitelisted := true)
    case Unwhitelist => p.(whitelisted := false)
    case TidyWhitelist => p
  }

  function PlainRun(p: Plain, events: seq<Event>): Plain {
    if events == [] then p
    else
      var last := |events| - 1;
      PlainAfter(PlainRun(p, events[..last]), events[last].op, events[last].at)
  }

  predicate Refines(r: Record, p: Plain, now: nat) {
    && r.strikes == p.strikes && r.whitelisted == p.whitelisted
    && Until(r.blocked, now) == (if InForce(p, now) then p.until else None)
  }

  lemma StepRefines(r: Record, p: Plain, op: Op, before: nat, now: nat)
    requires Agree(r, before) && Refines(r, p, before) && before <= now
    ensures Refines(After(r, op, now), PlainAfter(p, op, now), now)
  {
    assert Agree(r, now) && Refines(r, p, now);
  }

  /** With all its copies, the store refuses exactly when a single expiry per IP would. */
  lemma {:induction false} GuardRefinesOneExpiry(events: seq<Event>, now: nat)
    requires InOrder(events, now)
    ensures Refines(Run(Blank, events), PlainRun(Unknown, events), now)
    ensures
      var plain := PlainRun(Unknown, events);
      Refused(Run(Blank, events), now) <==> InForce(plain, now) && !plain.whitelisted
  {
    if events != [] {
      var last := |events| - 1;
      var before := if last > 0 then events[last - 1].at else 0;
      GuardRefinesOneExpiry(events[..last], before);
      RecordsAgree(events[..last], before);
      var earlier := events[..last];
      StepRefines(Run(Blank, earlier), PlainRun(Unknown, earlier), events[last].op, before, events[last].at);
    }
    RecordsAgree(events, now);
  }

  /** The console's listing shows exactly the blocks in force. */
  lemma ListingIsExact(events: seq<Event>, now: nat)
    requires InOrder(events, now)
    ensures After(Run(Blank, events), Tidy, now).indexed <==> InForce(PlainRun(Unknown, events), now)
  {
    RecordsAgree(events, now);
    GuardRefinesOneExpiry(events, now);
  }

  // ---- Strikes ----

  /** Strikes at these times, under one configuration. */
  function Strikes(times: seq<nat>, strikesCount: nat, seconds: nat, userAgent: string): seq<Event> {
    seq(|times|, i requires 0 <= i < |times| => Event(times[i], Strike(strikesCount, seconds, userAgent)))
  }

  /** Fewer strikes than the limit, all within a block's length of the first, only count. */
  lemma {:induction false} StrikesCount(r: Record, times: seq<nat>, strikesCount: nat, seconds: nat, userAgent: string)
    requires r.strikes.None? && 0 < |times| < strikesCount
    requires forall i | 0 <= i < |times| :: times[i] <= Expiry(times[0], seconds)
    ensures Run(r, Strikes(times, strikesCount, seconds, userAgent))
         == r.(strikes := Some(Stored(|times|, Expiry(times[0], seconds))))
    decreases |times|
  {
    var last := |times| - 1;
    var events := Strikes(times, strikesCount, seconds, userAgent);
    assert events[..last] == Strikes(times[..last], strikesCount, seconds, userAgent);
    if last > 0 {
      StrikesCount(r, times[..last], strikesCount, seconds, userAgent);
    }
  }

  /** The strike that reaches the limit blocks the address for the whole duration, and the count starts over. */
  lemma EnoughStrikesBlock(r: Record, times: seq<nat>, strikesCount: nat, seconds: nat, userAgent: string)
    requires r.strikes.None? && |times| == strikesCount > 0
    requires forall i | 0 <= i < |times| :: times[i] <= Expiry(times[0], seconds)
    ensures
      var after := Run(r, Strikes(times, strikesCount, seconds, userAgent));
      var last := times[strikesCount - 1];
      after.strikes.None? && after.indexed && Until(after.blocked, last) == Some(Expiry(last, seconds))
    ensures strikesCount > 1 ==>
      var before := Run(r, Strikes(times[..strikesCount - 1], strikesCount, seconds, userAgent));
      before.blocked == r.blocked && before.details == r.details
  {
    var last := strikesCount - 1;
    var events := Strikes(times, strikesCount, seconds, userAgent);
    assert events[..last] == Strikes(times[..last], strikesCount, seconds, userAgent);
    if last > 0 {
      StrikesCount(r, times[..last], strikesCount, seconds, userAgent);
    }
  }

  // ---- What the details say after a change ----

  /**
   `expiresAt` is documented as blockedAt + blockDuration; after a change that
   holds only within the second of the block.
  */
  lemma ChangeBreaksTheSum(r: Record, seconds: nat, now: nat)
    requires Live(r.details, now).Some?
    ensures
      var after := After(r, Change(seconds), now).details.value.value;
      after.blockedAt + after.blockDuration == after.expiresAt <==> now / 1000 == r.details.value.value.blockedAt
  {
  }

  /** For instance a one-minute block extended to two minutes after ten seconds. */
  lemma ChangedBlockExample()
    ensures
      var events := [Event(0, Block(60, "N/A", None)), Event(10000, Change(120))];
      var details := Run(Blank, events).details.value.value;
      InOrder(events, 10000) && details.blockedAt + details.blockDuration == 120 && details.expiresAt == 130
  {
    var events := [Event(0, Block(60, "N/A", None)), Event(10000, Change(120))];
    assert events[..1] == [Event(0, Block(60, "N/A", None))];
    assert events[..1][..0] == [];
    assert Run(Blank, events[..1]) == After(Blank, events[0].op, 0);
  }
}
